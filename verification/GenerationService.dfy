/** The service of app/ai/service.py in its own form: methods that drive the
    generation store, the object storage, the image provider and the ledger.
    Each method, run with nobody else in between, is proved to be exactly the
    thread of the step relation that the safety theorems are about. */
module GenerationService {
  import opened Wrappers
  import opened LedgerModel
  import opened GenerationModel
  import opened GenerationProtocol
  import opened GenerationProgress
  import Ends = GenerationEnds
  import Shards = ShardStore

  /** What `result` answers: the image, or one of its errors. */
  datatype Reply = Given | NotFound | StillPending | NotMade | ResultExpired

  /** `InMemoryGenerationStore`. */
  class GenerationStore {
    var generations: map<string, Generation>

    constructor ()
      ensures generations == map[]
    {
      generations := map[];
    }

    function Get(id: string): Option<Generation>
      reads this
    {
      if id in generations then Some(generations[id]) else None
    }

    /** Insert, or answer with what is there already. */
    method CreatePending(id: string, generation: Generation) returns (stored: Generation, isNew: bool)
      modifies this
      ensures isNew == (id !in old(generations))
      ensures isNew ==> stored == generation && generations == old(generations)[id := generation]
      ensures !isNew ==> stored == old(generations)[id] && generations == old(generations)
    {
      if id in generations {
        return generations[id], false;
      }
      generations := generations[id := generation];
      return generation, true;
    }

    /** Compare-and-set on the lease, behind the gate of `can_transition`. */
    method Finish(id: string, expected: Option<int>, target: Status, result: bool, refund: bool)
      returns (written: Option<Generation>)
      modifies this
      ensures written == GenerationModel.Finish(old(Get(id)), expected, target, result, refund)
      ensures generations == if written.Some? then old(generations)[id := written.value] else old(generations)
    {
      if id !in generations {
        return None;
      }
      var current := generations[id];
      if !CanTransition(current.status, target) {
        return None;
      }
      if current.lease != expected {
        return None;
      }
      var updated := Generation(target, current.created, None, result, refund || current.refundNoted);
      generations := generations[id := updated];
      return Some(updated);
    }

    method StealExpired(id: string, now: int) returns (stolen: Option<Generation>)
      modifies this
      ensures stolen == GenerationModel.StealExpired(old(Get(id)), now)
      ensures generations == if stolen.Some? then old(generations)[id := stolen.value] else old(generations)
    {
      if id !in generations {
        return None;
      }
      var current := generations[id];
      if !current.LeaseExpired(now) {
        return None;
      }
      var relet := current.(lease := Some(now + GENERATION_LEASE));
      generations := generations[id := relet];
      return Some(relet);
    }
  }

  /** The object storage and the image provider. How a call goes is decided
      outside; `uploads` and `calls` count. */
  class Outside {
    var objects: set<string>
    var uploads: nat
    var calls: nat

    constructor ()
      ensures objects == {} && uploads == 0 && calls == 0
    {
      objects, uploads, calls := {}, 0, 0;
    }

    method Provide(luck: Luck) returns (outcome: Luck)
      modifies this`calls
      ensures calls == old(calls) + 1 && outcome == luck
    {
      calls := calls + 1;
      outcome := luck;
    }

    /** `put`: raising means that nothing was stored. */
    method Put(name: string, luck: Luck) returns (ok: bool)
      modifies this`objects, this`uploads
      ensures ok == luck.Fine?
      ensures objects == (if ok then old(objects) + {name} else old(objects))
      ensures uploads == old(uploads) + if ok then 1 else 0
    {
      ok := luck.Fine?;
      if ok {
        objects := objects + {name};
        uploads := uploads + 1;
      }
    }

    /** `delete`: it may raise without or after taking effect. */
    method Delete(name: string, luck: Luck)
      modifies this`objects
      ensures objects == if luck.Refused? then old(objects) else old(objects) - {name}
    {
      if !luck.Refused? {
        objects := objects - {name};
      }
    }
  }

  /** One step of `RunToEnd`, whichever it is. */
  lemma Unroll(w: World, pc: Pc, job: Job, env: Env)
    requires !pc.Done?
    ensures RunToEnd(w, pc, job, env)
         == RunToEnd(ThreadStep(w, pc, job, env).0, ThreadStep(w, pc, job, env).1, job, env)
  {
  }

  /** A document that a status call answers as it is: finished, or pending and not due. */
  predicate Settled(w: World) {
    w.doc.Some? && !w.doc.value.status.Failed? && !Ends.Due(w.doc.value, w.clock)
  }

  class AIStickerService {
    const store: GenerationStore
    const outside: Outside
    const shards: Shards.InMemoryShardStore
    var clock: int

    constructor (store: GenerationStore, outside: Outside, shards: Shards.InMemoryShardStore, clock: int)
      ensures this.store == store && this.outside == outside && this.shards == shards && this.clock == clock
    {
      this.store, this.outside, this.shards, this.clock := store, outside, shards, clock;
    }

    /** Everything one generation shares, as the protocol sees it. */
    function View(job: Job): World
      reads this, store, outside, shards
    {
      World(store.Get(job.id), job.id in outside.objects, shards.View(), clock, outside.calls, outside.uploads)
    }

    /** `_refund`: credit under the deterministic key; any exception is a "not yet". */
    method Refund(job: Job, luck: Luck) returns (noted: bool)
      modifies shards
      ensures noted == luck.Fine?
      ensures shards.View() == if luck.Refused? then old(shards.View()) else Credited(old(shards.View()), job)
    {
      if !luck.Refused? {
        var r := shards.Apply(job.user, job.price, ShardReason.Refund, Some(job.RefundKey()), None, None);
      }
      noted := luck.Fine?;
    }

    /** `_fail`: the refund first, then the compare-and-set. */
    method Fail(job: Job, lease: Option<int>, role: Role, env: Env) returns (answer: Generation)
      requires store.Get(job.id).Some?
      modifies store, outside, shards
      ensures store.Get(job.id).Some? && clock == old(clock)
      ensures RunToEnd(old(View(job)), Refunding(lease, role), job, env)
           == RunToEnd(View(job), AfterFail(role, answer), job, env)
    {
      ghost var w0 := View(job);
      var noted := Refund(job, env.credit);
      ghost var w1 := View(job);
      assert ThreadStep(w0, Refunding(lease, role), job, env) == (w1, FailFinish(lease, role, noted));
      Unroll(w0, Refunding(lease, role), job, env);
      answer := Close(job, lease, role, noted, env);
    }

    method Close(job: Job, lease: Option<int>, role: Role, noted: bool, env: Env) returns (answer: Generation)
      requires store.Get(job.id).Some?
      modifies store
      ensures store.Get(job.id).Some? && clock == old(clock)
      ensures RunToEnd(old(View(job)), FailFinish(lease, role, noted), job, env)
           == RunToEnd(View(job), AfterFail(role, answer), job, env)
    {
      ghost var w1 := View(job);
      var written := store.Finish(job.id, lease, if noted then Refunded else Failed, false, noted);
      ghost var w2 := View(job);
      Unroll(w1, FailFinish(lease, role, noted), job, env);
      if written.Some? {
        assert ThreadStep(w1, FailFinish(lease, role, noted), job, env) == (w2, AfterFail(role, written.value));
        return written.value;
      }
      assert ThreadStep(w1, FailFinish(lease, role, noted), job, env) == (w2, FailRead(role));
      Unroll(w2, FailRead(role), job, env);
      answer := store.Get(job.id).value;
    }

    /** `_abandon`: a worker that lost the compare-and-set cleans up, unless the
        object it made is the confirmed result. */
    method Abandon(job: Job, env: Env) returns (answer: Generation)
      requires store.Get(job.id).Some?
      modifies store, outside, shards
      ensures RunToEnd(old(View(job)), AbandonRead, job, env) == (View(job), Answered(answer))
      ensures clock == old(clock)
    {
      ghost var w0 := View(job);
      answer := store.Get(job.id).value;
      Unroll(w0, AbandonRead, job, env);
      if answer.status.Succeeded? && answer.hasResult {
        return;
      }
      outside.Delete(job.id, env.delete);
      Unroll(w0, AbandonDelete(answer), job, env);
      assert ThreadStep(w0, AbandonDelete(answer), job, env) == (View(job), Done(Answered(answer)));
    }

    /** `_run`: provider, upload, confirm; any failure ends in `_fail`. */
    method RunJob(job: Job, lease: Option<int>, env: Env) returns (answer: Answer)
      requires store.Get(job.id).Some?
      modifies store, outside, shards
      ensures RunToEnd(old(View(job)), Providing(lease), job, env) == (View(job), answer)
      ensures clock == old(clock)
    {
      ghost var w0 := View(job);
      var provided := outside.Provide(env.provider);
      ghost var w1 := View(job);
      Unroll(w0, Providing(lease), job, env);
      if provided.Broken? {
        return Raised;
      }
      if provided.Refused? {
        var failed := Fail(job, lease, Worker, env);
        return Answered(failed);
      }
      answer := Upload(job, lease, env);
    }

    method Upload(job: Job, lease: Option<int>, env: Env) returns (answer: Answer)
      requires store.Get(job.id).Some?
      modifies store, outside, shards
      ensures RunToEnd(old(View(job)), Putting(lease), job, env) == (View(job), answer)
      ensures clock == old(clock)
    {
      ghost var w1 := View(job);
      var ok := outside.Put(job.id, env.put);
      ghost var w2 := View(job);
      Unroll(w1, Putting(lease), job, env);
      if !ok {
        assert ThreadStep(w1, Putting(lease), job, env) == (w2, Refunding(lease, Worker));
        var failed := Fail(job, lease, Worker, env);
        return Answered(failed);
      }
      assert ThreadStep(w1, Putting(lease), job, env) == (w2, Finishing(lease));
      var written := store.Finish(job.id, lease, Succeeded, true, false);
      ghost var w3 := View(job);
      Unroll(w2, Finishing(lease), job, env);
      if written.None? {
        assert ThreadStep(w2, Finishing(lease), job, env) == (w3, AbandonRead);
        var kept := Abandon(job, env);
        return Answered(kept);
      }
      assert ThreadStep(w2, Finishing(lease), job, env) == (w3, Done(Answered(written.value)));
      answer := Answered(written.value);
    }

    /** `_sweep_orphan`: best effort. */
    method SweepOrphan(job: Job, answer: Generation, env: Env)
      modifies outside
      ensures RunToEnd(old(View(job)), SweepLook(answer), job, env) == (View(job), Answered(answer))
    {
      ghost var w0 := View(job);
      Unroll(w0, SweepLook(answer), job, env);
      if env.probe.Fine? && job.id in outside.objects {
        outside.Delete(job.id, env.delete);
        Unroll(w0, SweepDelete(answer), job, env);
        assert ThreadStep(w0, SweepDelete(answer), job, env) == (View(job), Done(Answered(answer)));
      }
    }

    /** `reconcile`: take the expired lease, look for the object, then confirm or refund. */
    method Reconcile(job: Job, env: Env) returns (answer: Generation)
      requires store.Get(job.id).Some?
      modifies store, outside, shards
      ensures RunToEnd(old(View(job)), Stealing, job, env) == (View(job), Answered(answer))
      ensures clock == old(clock)
    {
      ghost var w0 := View(job);
      var stolen := store.StealExpired(job.id, clock);
      ghost var w1 := View(job);
      Unroll(w0, Stealing, job, env);
      if stolen.None? {
        assert ThreadStep(w0, Stealing, job, env) == (w1, ReadBack);
        Unroll(w1, ReadBack, job, env);
        return store.Get(job.id).value;
      }
      assert ThreadStep(w0, Stealing, job, env) == (w1, Checking(stolen.value));
      answer := Check(job, stolen.value, env);
    }

    method Check(job: Job, stolen: Generation, env: Env) returns (answer: Generation)
      requires store.Get(job.id).Some?
      modifies store, outside, shards
      ensures RunToEnd(old(View(job)), Checking(stolen), job, env) == (View(job), Answered(answer))
      ensures clock == old(clock)
    {
      ghost var w1 := View(job);
      Unroll(w1, Checking(stolen), job, env);
      if !env.probe.Fine? {
        return stolen;
      }
      if job.id in outside.objects {
        var written := store.Finish(job.id, stolen.lease, Succeeded, true, false);
        ghost var w2 := View(job);
        Unroll(w1, Recovering(stolen.lease), job, env);
        if written.Some? {
          assert ThreadStep(w1, Recovering(stolen.lease), job, env) == (w2, Done(Answered(written.value)));
          return written.value;
        }
        assert ThreadStep(w1, Recovering(stolen.lease), job, env) == (w2, ReadBack);
        Unroll(w2, ReadBack, job, env);
        return store.Get(job.id).value;
      }
      answer := Fail(job, stolen.lease, Reconciler, env);
      if answer.status.Refunded? {
        SweepOrphan(job, answer, env);
      }
    }

    /** `_retry_refund`. */
    method RetryRefund(job: Job, seen: Generation, env: Env) returns (answer: Generation)
      modifies store, shards
      ensures RunToEnd(old(View(job)), Retrying(seen), job, env) == (View(job), Answered(answer))
      ensures clock == old(clock)
    {
      ghost var w0 := View(job);
      var noted := Refund(job, env.credit);
      ghost var w1 := View(job);
      Unroll(w0, Retrying(seen), job, env);
      if !noted {
        assert ThreadStep(w0, Retrying(seen), job, env) == (w1, Done(Answered(seen)));
        return seen;
      }
      assert ThreadStep(w0, Retrying(seen), job, env) == (w1, RetryFinish(seen));
      var written := store.Finish(job.id, None, Refunded, false, true);
      ghost var w2 := View(job);
      Unroll(w1, RetryFinish(seen), job, env);
      answer := if written.Some? then written.value else seen;
      assert ThreadStep(w1, RetryFinish(seen), job, env) == (w2, Done(Answered(answer)));
    }

    /** `_resume`: what to answer for a document that exists. */
    method Resume(job: Job, seen: Generation, env: Env) returns (answer: Generation)
      requires store.Get(job.id).Some?
      modifies store, outside, shards
      ensures RunToEnd(old(View(job)), Resuming(seen), job, env) == (View(job), Answered(answer))
      ensures clock == old(clock)
    {
      Unroll(View(job), Resuming(seen), job, env);
      if seen.status.Failed? {
        answer := RetryRefund(job, seen, env);
      } else if seen.Recoverable(clock) {
        answer := Reconcile(job, env);
      } else {
        answer := seen;
      }
    }

    /** `status`: somebody else's generation is answered like one that is missing. */
    method Status(caller: string, job: Job, env: Env) returns (answer: Answer)
      modifies store, outside, shards
      ensures caller == job.user ==> RunToEnd(old(View(job)), StatusLook, job, env) == (View(job), answer)
      ensures caller != job.user ==> answer == Raised && View(job) == old(View(job))
      ensures caller == job.user && Settled(old(View(job))) ==>
                answer == Answered(old(View(job)).doc.value) && View(job) == old(View(job))
    {
      if Settled(View(job)) { Ends.SettledIsAnswered(View(job), job, env); }
      if store.Get(job.id).None? || caller != job.user {
        Unroll(View(job), StatusLook, job, env);
        return Raised;
      }
      Unroll(View(job), StatusLook, job, env);
      var seen := Resume(job, store.Get(job.id).value, env);
      answer := Answered(seen);
    }

    /** `result`: the image goes out to its owner only, for a generation that is
        SUCCEEDED now and while it is `kept`; an object that merely lies in storage
        is never handed out. */
    method Result(caller: string, job: Job, kept: bool, env: Env) returns (reply: Reply)
      modifies store, outside, shards
      ensures caller != job.user ==> reply == NotFound && View(job) == old(View(job))
      ensures caller == job.user ==>
                var (w, answer) := RunToEnd(old(View(job)), StatusLook, job, env);
                && View(job) == w
                && (reply.Given? <==> answer.Answered? && answer.generation.status.Succeeded? &&
                                      answer.generation.hasResult && kept && w.present)
                && (reply.NotFound? <==> answer.Raised?)
                && (reply.StillPending? <==> answer.Answered? && answer.generation.status.Pending?)
                && (reply.NotMade? <==> answer.Answered? && answer.generation.status in {Failed, Refunded})
      ensures caller == job.user && Settled(old(View(job))) ==> View(job) == old(View(job))
      ensures caller == job.user && Settled(old(View(job))) ==>
                var w := old(View(job));
                reply == match w.doc.value.status
                         case Pending => StillPending
                         case Succeeded => if w.doc.value.hasResult && kept && w.present then Given else ResultExpired
                         case _ => NotMade
    {
      var answer := Status(caller, job, env);
      if answer.Raised? {
        return NotFound;
      }
      if answer.generation.status.Pending? {
        return StillPending;
      }
      if !answer.generation.status.Succeeded? {
        return NotMade;
      }
      if !answer.generation.hasResult || !kept {
        return ResultExpired;
      }
      reply := if job.id in outside.objects then Given else ResultExpired;
    }

    /** `generate`: resume what exists; otherwise create, debit and run. */
    method Generate(job: Job, env: Env) returns (answer: Answer)
      modifies store, outside, shards
      ensures RunToEnd(old(View(job)), GenerateLook, job, env) == (View(job), answer)
      ensures Ends.Fresh(old(View(job)), job) ==> Ends.CallEnded(old(View(job)), job, env, View(job), answer)
    {
      ghost var w0 := View(job);
      if Ends.Fresh(w0, job) { Ends.FirstCallEnds(w0, job, env); }
      Unroll(w0, GenerateLook, job, env);
      if store.Get(job.id).Some? {
        var seen := Resume(job, store.Get(job.id).value, env);
        return Answered(seen);
      }
      Unroll(w0, GeneratePrepare, job, env);
      if !env.ready {
        return Raised;
      }
      var created, isNew := store.CreatePending(job.id, Leased(clock));
      ghost var w1 := View(job);
      Unroll(w0, Creating(Leased(clock)), job, env);
      assert ThreadStep(w0, Creating(Leased(clock)), job, env) == (w1, Debiting(created.lease));
      answer := Charge(job, created.lease, env);
    }

    /** The debit, and what follows from it. */
    method Charge(job: Job, lease: Option<int>, env: Env) returns (answer: Answer)
      requires store.Get(job.id).Some?
      modifies store, outside, shards
      ensures RunToEnd(old(View(job)), Debiting(lease), job, env) == (View(job), answer)
    {
      ghost var w0 := View(job);
      Unroll(w0, Debiting(lease), job, env);
      if env.debit.Refused? {
        return Raised;
      }
      var r := shards.Apply(job.user, -job.price, AiSticker, Some(job.DebitKey()), None, None);
      ghost var w1 := View(job);
      if env.debit.Broken? {
        return Raised;
      }
      if r.Failure? {
        assert ThreadStep(w0, Debiting(lease), job, env) == (w1, ClosingUnpaid(lease));
        var closed := store.Finish(job.id, lease, Refunded, false, false);
        Unroll(w1, ClosingUnpaid(lease), job, env);
        assert ThreadStep(w1, ClosingUnpaid(lease), job, env) == (View(job), Done(Raised));
        return Raised;
      }
      assert ThreadStep(w0, Debiting(lease), job, env) == (w1, Providing(lease));
      answer := RunJob(job, lease, env);
    }
  }
}
