/** Whole runs of the ledger: any sequence of credits, debits, committed batches,
    guest hand-overs, purchases and Apple notifications, in any order and with
    any repetition. */
module LedgerRuns {
  import opened Wrappers
  import opened LedgerModel
  import opened LedgerInvariant
  import opened StagedMoves
  import opened GuestWallets
  import opened IapModel
  import opened IapLifecycle

  /** A quota is named by a period; its counter is scoped like every other key. */
  datatype Gate = Gate(period: string, limit: int)

  datatype Op =
    | Credit(user: string, amount: int, reason: ShardReason, event: Option<Event>, gate: Option<Gate>)
    | Debit(user: string, amount: int, reason: ShardReason, event: Option<Event>)
    | Batch(moves: seq<Move>)
    | Claim(guest: string, owner: string)
    | PayOut(user: string, transaction: Transaction, amount: int)
    | RefundNotice(transaction: Transaction)
    | ReversalNotice(transaction: Transaction)

  function KeyFor(user: string, reason: ShardReason, event: Option<Event>): Option<Key> {
    if event.Some? then Some(Key(user, reason, event.value)) else None
  }

  function QuotaKey(user: string, reason: ShardReason, period: string): Key {
    Key(user, reason, Named("quota:" + period))
  }

  function QuotaFor(user: string, reason: ShardReason, gate: Option<Gate>): Option<PeriodQuota> {
    if gate.Some? then Some(PeriodQuota(QuotaKey(user, reason, gate.value.period), gate.value.limit)) else None
  }

  function Credited(l: Ledger, user: string, amount: int, reason: ShardReason, event: Option<Event>, gate: Option<Gate>)
    : (Ledger, Result<Mutation, ShardError>)
  {
    if !UsableAmount(amount) then (l, Failure(InvalidShardAmount))
    else Apply(l, user, amount, reason, KeyFor(user, reason, event), QuotaFor(user, reason, gate), None)
  }

  function Debited(l: Ledger, user: string, amount: int, reason: ShardReason, event: Option<Event>)
    : (Ledger, Result<Mutation, ShardError>)
  {
    if !UsableAmount(amount) then (l, Failure(InvalidShardAmount))
    else Apply(l, user, -amount, reason, KeyFor(user, reason, event), None, None)
  }

  /** Stage every movement, then commit; any exception leaves the ledger alone. */
  function Committed(l: Ledger, moves: seq<Move>): Ledger {
    if (forall m :: m in moves ==> UsableDelta(m.delta)) && StageAll(l, {}, moves).Success?
    then WriteAll(l, StageAll(l, {}, moves).value.0)
    else l
  }

  function Step(l: Ledger, op: Op): Ledger {
    match op
    case Credit(user, amount, reason, event, gate) => Credited(l, user, amount, reason, event, gate).0
    case Debit(user, amount, reason, event) => Debited(l, user, amount, reason, event).0
    case Batch(moves) => Committed(l, moves)
    case Claim(guest, owner) => HandOver(l, guest, owner).0
    case PayOut(user, t, amount) => Purchase(l, user, t, amount).0
    case RefundNotice(t) => HandleRefund(l, t).0
    case ReversalNotice(t) => HandleReversal(l, t).0
  }

  // An absent or empty event identifier is `None`; Apple's transaction ids are never empty.

  /** Reasons that any feature may use; the others belong to one operation each. */
  predicate OpenReason(reason: ShardReason) { !IapReason(reason) && !reason.GuestClaim? }

  predicate ValidOp(op: Op) {
    match op
    case Credit(_, _, reason, _, _) => OpenReason(reason)
    case Debit(_, _, reason, _) => OpenReason(reason)
    case Batch(moves) => forall m :: m in moves ==> OpenReason(m.reason)
    case PayOut(_, t, _) => t.id != ""
    case _ => true
  }

  predicate ValidRun(ops: seq<Op>) { forall op :: op in ops ==> ValidOp(op) }

  function Run(l: Ledger, ops: seq<Op>): Ledger
    decreases |ops|
  {
    if ops == [] then l else Run(Step(l, ops[0]), ops[1..])
  }

  ghost predicate Sound(l: Ledger) { Core(l) && Paired(l) && IapSound(l) }

  lemma EmptyIsSound()
    ensures Sound(EMPTY_LEDGER)
  {
    forall id: string ensures SoundAt(EMPTY_LEDGER, id) {
    }
  }

  // Every step keeps the invariant.

  /** An ordinary movement touches neither hand-overs nor Apple transactions. */
  lemma ApplyKeepsSides(l: Ledger, user: string, delta: int, reason: ShardReason, key: Option<Key>,
                        quota: Option<PeriodQuota>)
    requires Paired(l) && IapSound(l) && OpenReason(reason)
    requires key.Some? ==> key.value.user == user && key.value.reason == reason
    ensures var after := Apply(l, user, delta, reason, key, quota, None).0;
            Paired(after) && IapSound(after)
  {
    var (after, r) := Apply(l, user, delta, reason, key, quota, None);
    if r.Success? && r.value.applied {
      var e := r.value.entry;
      forall id: string ensures SoundAt(after, id) {
        assert SoundAt(l, id);
        IapNetAppend(l.entries, e, id);
        SameForKeeps(l, after, id);
      }
      forall a: string, b: string | PairKey(a, b) in after.applied ensures PairKey(b, a) in after.applied {
        assert PairKey(a, b) in l.applied;
      }
    }
  }

  lemma ApplyKeepsSound(l: Ledger, user: string, delta: int, reason: ShardReason, key: Option<Key>,
                        quota: Option<PeriodQuota>)
    requires Sound(l) && OpenReason(reason)
    requires key.Some? ==> key.value.user == user && key.value.reason == reason
    ensures Sound(Apply(l, user, delta, reason, key, quota, None).0)
  {
    ApplyKeepsCore(l, user, delta, reason, key, quota, None);
    ApplyKeepsSides(l, user, delta, reason, key, quota);
  }

  lemma {:induction false} SerialKeepsSound(l: Ledger, moves: seq<Move>)
    requires Sound(l) && SerialAll(l, moves).Success? && forall m :: m in moves ==> OpenReason(m.reason)
    ensures Sound(SerialAll(l, moves).value.0)
    decreases |moves|
  {
    if moves != [] {
      var m := moves[0];
      ApplyKeepsSound(l, m.user, m.delta, m.reason, Some(m.Key()), None);
      SerialKeepsSound(ApplyKeyed(l, m.user, m.delta, m.reason, m.event).0, moves[1..]);
    }
  }

  lemma BatchKeepsSound(l: Ledger, moves: seq<Move>)
    requires Sound(l) && forall m :: m in moves ==> OpenReason(m.reason)
    ensures Sound(Committed(l, moves))
  {
    StagedRefinesSerial(l, moves);
    if StageAll(l, {}, moves).Success? {
      SerialKeepsSound(l, moves);
    }
  }

  lemma HandOverKeepsIap(l: Ledger, guest: string, owner: string)
    requires IapSound(l)
    ensures IapSound(HandOver(l, guest, owner).0)
  {
    var after := HandOver(l, guest, owner).0;
    if after != l {
      MovesWhenChanged(l, guest, owner);
      var e, w, f, v := HandOverWrites(l, guest, owner);
      var middle := LedgerModel.Write(l, e, w);
      forall id: string ensures SoundAt(after, id) {
        assert SoundAt(l, id);
        WriteElsewhere(l, e, w, id);
        SameForKeeps(l, middle, id);
        WriteElsewhere(middle, f, v, id);
        SameForKeeps(middle, after, id);
      }
    }
  }

  /** Apple's operations write no hand-over keys. */
  lemma PairsUntouched(l: Ledger, after: Ledger)
    requires Paired(l)
    requires forall k: Key :: k.reason.GuestClaim? ==> (k in l.applied <==> k in after.applied)
    ensures Paired(after)
  {
    forall a: string, b: string | PairKey(a, b) in after.applied ensures PairKey(b, a) in after.applied {
      assert PairKey(a, b) in l.applied;
    }
  }

  lemma PurchaseKeepsSound(l: Ledger, user: string, t: Transaction, amount: int)
    requires Sound(l)
    ensures Sound(Purchase(l, user, t, amount).0)
  {
    var after := Purchase(l, user, t, amount).0;
    assert Core(after) by {
      var document := Document("", t.product, t.environment, amount, 0, 0, 0, 0);
      ApplyKeepsCore(l, user, amount, IapPurchase, Some(BuyKey(user, t.id)), None,
                     Some(ExclusiveClaim(Slot(t.id), document)));
    }
    forall id: string ensures SoundAt(after, id) {
      assert SoundAt(l, id);
      PurchaseKeepsAt(l, user, t, amount, id);
    }
    PairsUntouched(l, after);
  }

  lemma RefundKeepsSound(l: Ledger, t: Transaction)
    requires Sound(l)
    ensures Sound(HandleRefund(l, t).0)
  {
    var after := HandleRefund(l, t).0;
    assert SoundAt(l, t.id);
    RefundKeepsCore(l, t);
    if RefundTarget(t).Some? {
      assert WalletOf(l, RefundTarget(t).value).balance >= 0;
    }
    forall id: string ensures SoundAt(after, id) {
      assert SoundAt(l, id);
      RefundKeepsAt(l, t, id);
    }
    RefundKeepsPairs(l, t);
  }

  lemma RefundKeepsPairs(l: Ledger, t: Transaction)
    requires Paired(l)
    ensures Paired(HandleRefund(l, t).0)
  {
    if HandleRefund(l, t).0 != l {
      RefundSplits(l, t);
      PairsUntouched(l, HandleRefund(l, t).0);
    }
  }

  lemma ReversalKeepsSound(l: Ledger, t: Transaction)
    requires Sound(l)
    ensures Sound(HandleReversal(l, t).0)
  {
    var after := HandleReversal(l, t).0;
    assert SoundAt(l, t.id);
    ReversalKeepsCore(l, t);
    forall id: string ensures SoundAt(after, id) {
      assert SoundAt(l, id);
      ReversalKeepsAt(l, t, id);
    }
    ReversalKeepsPairs(l, t);
  }

  lemma ReversalKeepsPairs(l: Ledger, t: Transaction)
    requires Paired(l)
    ensures Paired(HandleReversal(l, t).0)
  {
    if HandleReversal(l, t).0 != l {
      ReversalSplits(l, t);
      PairsUntouched(l, HandleReversal(l, t).0);
    }
  }

  lemma StepKeepsSound(l: Ledger, op: Op)
    requires Sound(l) && ValidOp(op)
    ensures Sound(Step(l, op))
  {
    match op
    case Credit(user, amount, reason, event, gate) =>
      ApplyKeepsSound(l, user, amount, reason, KeyFor(user, reason, event), QuotaFor(user, reason, gate));
    case Debit(user, amount, reason, event) =>
      ApplyKeepsSound(l, user, -amount, reason, KeyFor(user, reason, event), None);
    case Batch(moves) => BatchKeepsSound(l, moves);
    case Claim(guest, owner) => HandOverKeepsCore(l, guest, owner);
      HandOverKeepsPairs(l, guest, owner);
      HandOverKeepsIap(l, guest, owner);
    case PayOut(user, t, amount) => PurchaseKeepsSound(l, user, t, amount);
    case RefundNotice(t) => RefundKeepsSound(l, t);
    case ReversalNotice(t) => ReversalKeepsSound(l, t);
  }

  lemma {:induction false} RunKeepsSound(l: Ledger, ops: seq<Op>)
    requires Sound(l) && ValidRun(ops)
    ensures Sound(Run(l, ops))
    decreases |ops|
  {
    if ops != [] {
      StepKeepsSound(l, ops[0]);
      RunKeepsSound(Step(l, ops[0]), ops[1..]);
    }
  }
}
