/** The AI generation protocol as a step relation (app/ai/service.py): any
    number of callers race on one document, one object and the shared ledger.
    Every store, storage, provider and ledger call is one atomic step, and a
    thread that never steps again has crashed. */
module GenerationProtocol {
  import opened Wrappers
  import opened LedgerModel
  import opened LedgerInvariant
  import opened GenerationModel

  /** Which generation: its id, owner and price. */
  datatype Job = Job(id: string, user: string, price: int) {
    function DebitKey(): Key { Key(user, AiSticker, Named(id)) }
    function RefundKey(): Key { Key(user, Refund, RefundOf(id)) }
  }

  /** Everything the threads share. `providerCalls` and `uploads` are history. */
  datatype World = World(
    doc: Option<Generation>, present: bool, ledger: Ledger, clock: int,
    providerCalls: nat, uploads: nat)

  /** How one call into the outside goes: it works, it raises without having had
      an effect, or it raises although the effect took place. */
  datatype Luck = Fine | Refused | Broken

  datatype Env = Env(ready: bool, provider: Luck, put: Luck, debit: Luck, credit: Luck, probe: Luck, delete: Luck)

  const CALM := Env(true, Fine, Fine, Fine, Fine, Fine, Fine)

  datatype Role = Worker | Reconciler

  datatype Answer = Raised | Answered(generation: Generation)

  /** What a thread does next, with the local values it carries. */
  datatype Pc =
    | GenerateLook
    | GeneratePrepare
    | Creating(generation: Generation)
    | Debiting(lease: Option<int>)
    | ClosingUnpaid(lease: Option<int>)
    | Providing(lease: Option<int>)
    | Putting(lease: Option<int>)
    | Finishing(lease: Option<int>)
    | AbandonRead
    | AbandonDelete(seen: Generation)
    | Refunding(lease: Option<int>, role: Role)
    | FailFinish(lease: Option<int>, role: Role, refunded: bool)
    | FailRead(role: Role)
    | StatusLook
    | Resuming(seen: Generation)
    | Stealing
    | Checking(stolen: Generation)
    | Recovering(lease: Option<int>)
    | ReadBack
    | SweepLook(answer: Generation)
    | SweepDelete(answer: Generation)
    | Retrying(seen: Generation)
    | RetryFinish(seen: Generation)
    | Done(outcome: Answer)

  /** Credit or debit through the ledger's idempotent `apply`. */
  function Debited(l: Ledger, job: Job): (Ledger, Result<Mutation, ShardError>) {
    ApplyKeyed(l, job.user, -job.price, AiSticker, Named(job.id))
  }

  function Credited(l: Ledger, job: Job): Ledger {
    ApplyKeyed(l, job.user, job.price, Refund, RefundOf(job.id)).0
  }

  /** After `_fail` answered `g`: a reconciler that ended in a refund also sweeps. */
  function AfterFail(role: Role, g: Generation): Pc {
    if role.Reconciler? && g.status.Refunded? then SweepLook(g) else Done(Answered(g))
  }

  predicate MovesShards(pc: Pc) { pc.Debiting? || pc.Refunding? || pc.Retrying? }

  predicate WritesDocument(pc: Pc) {
    || pc.Creating? || pc.ClosingUnpaid? || pc.Finishing? || pc.FailFinish? || pc.Stealing? || pc.Recovering?
    || pc.RetryFinish?
  }

  predicate TouchesOutside(pc: Pc) {
    pc.Providing? || pc.Putting? || pc.AbandonDelete? || pc.Checking? || pc.SweepLook? || pc.SweepDelete?
  }

  /** Steps that call the ledger. */
  function ShardStep(w: World, pc: Pc, job: Job, env: Env): (World, Pc)
    requires MovesShards(pc)
  {
    match pc
    case Debiting(lease) =>
      var (after, r) := Debited(w.ledger, job);
      if env.debit.Refused? then (w, Done(Raised))
      else if env.debit.Broken? then (w.(ledger := after), Done(Raised))
      else (w.(ledger := after), if r.Success? then Providing(lease) else ClosingUnpaid(lease))
    case Refunding(lease, role) =>
      (if env.credit.Refused? then w else w.(ledger := Credited(w.ledger, job)),
       FailFinish(lease, role, env.credit.Fine?))
    case Retrying(seen) =>
      (if env.credit.Refused? then w else w.(ledger := Credited(w.ledger, job)),
       if env.credit.Fine? then RetryFinish(seen) else Done(Answered(seen)))
  }

  /** Steps that write the document: the compare-and-set operations. */
  function DocumentStep(w: World, pc: Pc): (World, Pc)
    requires WritesDocument(pc)
  {
    match pc
    case Creating(g) =>
      if w.doc.Some? then (w, Resuming(w.doc.value))
      else (w.(doc := Some(g)), Debiting(g.lease))
    case ClosingUnpaid(lease) =>
      (w.(doc := Stored(w.doc, Finish(w.doc, lease, Refunded, false, false))), Done(Raised))
    case Finishing(lease) =>
      var written := Finish(w.doc, lease, Succeeded, true, false);
      (w.(doc := Stored(w.doc, written)),
       if written.Some? then Done(Answered(written.value)) else AbandonRead)
    case FailFinish(lease, role, refunded) =>
      var written := Finish(w.doc, lease, if refunded then Refunded else Failed, false, refunded);
      (w.(doc := Stored(w.doc, written)),
       if written.Some? then AfterFail(role, written.value) else FailRead(role))
    case Stealing =>
      var stolen := StealExpired(w.doc, w.clock);
      (w.(doc := Stored(w.doc, stolen)),
       if stolen.Some? then Checking(stolen.value) else ReadBack)
    case Recovering(lease) =>
      var written := Finish(w.doc, lease, Succeeded, true, false);
      (w.(doc := Stored(w.doc, written)),
       if written.Some? then Done(Answered(written.value)) else ReadBack)
    case RetryFinish(seen) =>
      var written := Finish(w.doc, None, Refunded, false, true);
      (w.(doc := Stored(w.doc, written)),
       Done(Answered(if written.Some? then written.value else seen)))
  }

  /** Steps that call the image provider or the object storage. */
  function OutsideStep(w: World, pc: Pc, env: Env): (World, Pc)
    requires TouchesOutside(pc)
  {
    match pc
    case Providing(lease) =>
      (w.(providerCalls := w.providerCalls + 1),
       match env.provider
       case Fine => Putting(lease)
       case Refused => Refunding(lease, Worker)
       case Broken => Done(Raised))
    case Putting(lease) =>
      if env.put.Fine? then (w.(present := true, uploads := w.uploads + 1), Finishing(lease))
      else (w, Refunding(lease, Worker))
    case AbandonDelete(seen) =>
      (if env.delete.Refused? then w else w.(present := false), Done(Answered(seen)))
    case Checking(stolen) =>
      (w, if !env.probe.Fine? then Done(Answered(stolen))
          else if w.present then Recovering(stolen.lease)
          else Refunding(stolen.lease, Reconciler))
    case SweepLook(answer) =>
      (w, if env.probe.Fine? && w.present then SweepDelete(answer) else Done(Answered(answer)))
    case SweepDelete(answer) =>
      (if env.delete.Refused? then w else w.(present := false), Done(Answered(answer)))
  }

  /** Steps that only read the document or the clock. */
  function ReadStep(w: World, pc: Pc, env: Env): Pc
    requires !MovesShards(pc) && !WritesDocument(pc) && !TouchesOutside(pc)
  {
    match pc
    case GenerateLook => if w.doc.Some? then Resuming(w.doc.value) else GeneratePrepare
    case GeneratePrepare => if env.ready then Creating(Leased(w.clock)) else Done(Raised)
    case AbandonRead =>
      if w.doc.None? then Done(Raised)
      else if w.doc.value.status.Succeeded? && w.doc.value.hasResult then Done(Answered(w.doc.value))
      else AbandonDelete(w.doc.value)
    case FailRead(role) => if w.doc.Some? then AfterFail(role, w.doc.value) else Done(Raised)
    case StatusLook => if w.doc.Some? then Resuming(w.doc.value) else Done(Raised)
    case Resuming(seen) =>
      if seen.status.Failed? then Retrying(seen)
      else if seen.Recoverable(w.clock) then Stealing
      else Done(Answered(seen))
    case ReadBack => if w.doc.Some? then Done(Answered(w.doc.value)) else Done(Raised)
    case Done(_) => pc
  }

  /** One atomic step of one thread. */
  function ThreadStep(w: World, pc: Pc, job: Job, env: Env): (World, Pc) {
    if MovesShards(pc) then ShardStep(w, pc, job, env)
    else if WritesDocument(pc) then DocumentStep(w, pc)
    else if TouchesOutside(pc) then OutsideStep(w, pc, env)
    else (w, ReadStep(w, pc, env))
  }

  /** The world and every thread started so far. `creator` is history: the
      thread whose `create_pending` made the document. */
  datatype System = System(world: World, threads: map<int, Pc>, creator: Option<int>)

  /** Ledger activity of every other feature: the two keys of this generation
      are written by nobody else. */
  ghost predicate ElsewhereMoves(l: Ledger, l': Ledger, job: Job) {
    && Core(l')
    && (forall k | k == job.DebitKey() || k == job.RefundKey() ::
          (k in l.applied <==> k in l'.applied) && (k in l.applied ==> l'.applied[k] == l.applied[k]))
  }

  ghost predicate Init(s: System, job: Job) {
    && s.threads == map[] && s.creator == None
    && s.world.doc == None && !s.world.present
    && s.world.providerCalls == 0 && s.world.uploads == 0
    && Core(s.world.ledger)
    && job.DebitKey() !in s.world.ledger.applied && job.RefundKey() !in s.world.ledger.applied
  }

  /** A new call arrives. */
  ghost predicate Arrives(s: System, s': System) {
    exists i :: i !in s.threads && i in s'.threads &&
                (s'.threads[i] == GenerateLook || s'.threads[i] == StatusLook) &&
                s' == s.(threads := s.threads[i := s'.threads[i]])
  }

  predicate Creates(w: World, pc: Pc) { pc.Creating? && w.doc.None? }

  /** Thread i takes one step. */
  function StepOf(s: System, i: int, job: Job, env: Env): System
    requires i in s.threads
  {
    var (w, pc) := ThreadStep(s.world, s.threads[i], job, env);
    System(w, s.threads[i := pc], if Creates(s.world, s.threads[i]) then Some(i) else s.creator)
  }

  ghost predicate Acts(s: System, s': System, i: int, job: Job) {
    i in s.threads && exists env :: s' == StepOf(s, i, job, env)
  }

  ghost predicate Ticks(s: System, s': System) {
    s.world.clock <= s'.world.clock && s' == s.(world := s.world.(clock := s'.world.clock))
  }

  ghost predicate Elsewhere(s: System, s': System, job: Job) {
    && ElsewhereMoves(s.world.ledger, s'.world.ledger, job)
    && s' == s.(world := s.world.(ledger := s'.world.ledger))
  }

  ghost predicate Next(s: System, s': System, job: Job) {
    || Arrives(s, s')
    || Ticks(s, s')
    || Elsewhere(s, s', job)
    || exists i :: Acts(s, s', i, job)
  }

  ghost predicate StepAt(ss: seq<System>, n: int, job: Job)
    requires 0 <= n < |ss| - 1
  {
    Next(ss[n], ss[n + 1], job)
  }

  /** A finite run: any interleaving of any number of calls, ticks and other
      ledger activity. */
  ghost predicate Behaviour(ss: seq<System>, job: Job) {
    && |ss| > 0 && Init(ss[0], job)
    && forall n :: 0 <= n < |ss| - 1 ==> StepAt(ss, n, job)
  }
}
