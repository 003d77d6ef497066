/** What every run of the ledger guarantees. */
module LedgerTheorems {
  import opened Wrappers
  import opened LedgerModel
  import opened LedgerInvariant
  import opened StagedMoves
  import opened GuestWallets
  import opened IapModel
  import opened IapLifecycle
  import opened LedgerRuns
  import Protocol = GenerationProtocol
  import Store = OptimisticStore

  /** The ledger after `ops`, from nothing. */
  function After(ops: seq<Op>): Ledger { Run(EMPTY_LEDGER, ops) }

  lemma AfterIsSound(ops: seq<Op>)
    requires ValidRun(ops)
    ensures Sound(After(ops))
  {
    EmptyIsSound();
    RunKeepsSound(EMPTY_LEDGER, ops);
  }

  // Wallets and entries.

  /** Every wallet is exactly what the ledger says, is never overdrawn, and its
      totals add up to its balance. */
  lemma WalletsMatchLedger(ops: seq<Op>, user: string)
    requires ValidRun(ops)
    ensures var l := After(ops);
            var w := WalletOf(l, user);
            && w == Project(l.entries, user)
            && 0 <= w.balance == SumOf(l.entries, user) == w.earned - w.spent - w.refunded + w.reversed
  {
    AfterIsSound(ops);
    ProjectBalances(After(ops).entries, user);
  }

  /** Every `balance_after` is the owner's running total at that very entry. */
  lemma BalanceAfterIsRunningTotal(ops: seq<Op>, i: nat)
    requires ValidRun(ops) && i < |After(ops).entries|
    ensures var es := After(ops).entries;
            es[i].balanceAfter == SumOf(es[..i + 1], es[i].user) && es[i].balanceAfter >= 0
  {
    AfterIsSound(ops);
    var es := After(ops).entries;
    ProjectBalances(es[..i + 1], es[i].user);
  }

  /** An event of a user, whatever it is, is in the ledger at most once. */
  lemma KeyAppliesAtMostOnce(ops: seq<Op>, key: Key)
    requires ValidRun(ops)
    ensures Occurrences(After(ops).entries, key) == if key in After(ops).applied then 1 else 0
  {
    AfterIsSound(ops);
    KeyLabelsOneEntry(After(ops), key);
  }

  // The ledger is append-only.

  /** `m` extends `l`: entries were appended, keys were added, none was changed. */
  ghost predicate Extends(l: Ledger, m: Ledger) {
    && l.entries <= m.entries
    && (forall k :: k in l.applied ==> k in m.applied && m.applied[k] == l.applied[k])
  }

  lemma {:induction false} WriteAllExtends(l: Ledger, now: Ledger, moves: seq<Move>)
    requires SerialAll(now, moves).Success? && Extends(l, now)
    ensures Extends(l, SerialAll(now, moves).value.0)
    decreases |moves|
  {
    if moves != [] {
      var m := moves[0];
      var next := ApplyKeyed(now, m.user, m.delta, m.reason, m.event).0;
      WriteAllExtends(l, next, moves[1..]);
    }
  }

  lemma HandOverExtends(l: Ledger, guest: string, owner: string)
    requires Core(l) && Paired(l)
    ensures Extends(l, HandOver(l, guest, owner).0)
  {
    var after := HandOver(l, guest, owner).0;
    if after != l {
      MovesWhenChanged(l, guest, owner);
      HandOverOutcome(l, guest, owner);
      var e, w, f, v := HandOverWrites(l, guest, owner);
      assert PairKey(guest, owner) !in l.applied && PairKey(owner, guest) !in l.applied;
    }
  }

  lemma AppendedExtends(l: Ledger, e: Entry, w: Wallet, appended: bool, after: Ledger)
    requires (appended ==> Appendable(l, e, w)) && AsWritten(l, e, w, appended, after)
    ensures Extends(l, after)
  {
  }

  lemma RefundExtends(l: Ledger, t: Transaction)
    requires SoundAt(l, t.id) && forall u :: WalletOf(l, u).balance >= 0
    ensures Extends(l, HandleRefund(l, t).0)
  {
    if HandleRefund(l, t).0 != l {
      var e, w, taken := RefundAppends(l, t);
      AppendedExtends(l, e, w, taken, HandleRefund(l, t).0);
    }
  }

  lemma ReversalExtends(l: Ledger, t: Transaction)
    requires SoundAt(l, t.id) && forall u :: WalletOf(l, u).balance >= 0
    ensures Extends(l, HandleReversal(l, t).0)
  {
    if HandleReversal(l, t).0 != l {
      var e, w := ReversalAppends(l, t);
      AppendedExtends(l, e, w, true, HandleReversal(l, t).0);
    }
  }

  lemma AppleExtends(l: Ledger, t: Transaction)
    requires Sound(l)
    ensures Extends(l, HandleRefund(l, t).0) && Extends(l, HandleReversal(l, t).0)
  {
    assert SoundAt(l, t.id);
    assert forall u :: WalletOf(l, u).balance >= 0;
    RefundExtends(l, t);
    ReversalExtends(l, t);
  }

  lemma ApplyExtends(l: Ledger, user: string, delta: int, reason: ShardReason, key: Option<Key>,
                     quota: Option<PeriodQuota>, claim: Option<ExclusiveClaim>)
    ensures Extends(l, Apply(l, user, delta, reason, key, quota, claim).0)
  {
  }

  lemma BatchExtends(l: Ledger, moves: seq<Move>)
    ensures Extends(l, Committed(l, moves))
  {
    StagedRefinesSerial(l, moves);
    if StageAll(l, {}, moves).Success? {
      WriteAllExtends(l, l, moves);
    }
  }

  lemma MovementExtends(l: Ledger, op: Op)
    requires op.Credit? || op.Debit?
    ensures Extends(l, Step(l, op))
  {
    match op
    case Credit(user, amount, reason, event, gate) =>
      ApplyExtends(l, user, amount, reason, KeyFor(user, reason, event), QuotaFor(user, reason, gate), None);
    case Debit(user, amount, reason, event) =>
      ApplyExtends(l, user, -amount, reason, KeyFor(user, reason, event), None, None);
  }

  lemma PayOutExtends(l: Ledger, user: string, t: Transaction, amount: int)
    ensures Extends(l, Purchase(l, user, t, amount).0)
  {
    var document := Document("", t.product, t.environment, amount, 0, 0, 0, 0);
    ApplyExtends(l, user, amount, IapPurchase, Some(BuyKey(user, t.id)), None,
                 Some(ExclusiveClaim(Slot(t.id), document)));
  }

  lemma StepExtends(l: Ledger, op: Op)
    requires Sound(l)
    ensures Extends(l, Step(l, op))
  {
    match op
    case Batch(moves) => BatchExtends(l, moves);
    case Claim(guest, owner) => HandOverExtends(l, guest, owner);
    case PayOut(user, t, amount) => PayOutExtends(l, user, t, amount);
    case RefundNotice(t) => AppleExtends(l, t);
    case ReversalNotice(t) => AppleExtends(l, t);
    case _ => MovementExtends(l, op);
  }

  /** Nothing that was written is ever changed or removed by what comes later. */
  lemma {:induction false} LedgerIsAppendOnly(l: Ledger, ops: seq<Op>)
    requires Sound(l) && ValidRun(ops)
    ensures Extends(l, Run(l, ops))
    decreases |ops|
  {
    if ops != [] {
      StepExtends(l, ops[0]);
      StepKeepsSound(l, ops[0]);
      LedgerIsAppendOnly(Step(l, ops[0]), ops[1..]);
    }
  }

  // Quotas.

  /** Did this step pay out a credit that `quota` gated? */
  predicate Gates(l: Ledger, op: Op, quota: Key) {
    op.Credit? && op.gate.Some? && QuotaKey(op.user, op.reason, op.gate.value.period) == quota &&
    var r := Credited(l, op.user, op.amount, op.reason, op.event, op.gate).1;
    r.Success? && r.value.applied
  }

  /** How many credits of the run `quota` gated and let through. */
  function GatedCredits(l: Ledger, ops: seq<Op>, quota: Key): nat
    decreases |ops|
  {
    if ops == [] then 0
    else (if Gates(l, ops[0], quota) then 1 else 0) + GatedCredits(Step(l, ops[0]), ops[1..], quota)
  }

  lemma {:induction false} WriteAllKeepsQuotas(l: Ledger, writes: seq<(Entry, Wallet)>)
    ensures WriteAll(l, writes).quotas == l.quotas
    decreases |writes|
  {
    if writes != [] {
      WriteAllKeepsQuotas(LedgerModel.Write(l, writes[0].0, writes[0].1), writes[1..]);
    }
  }

  lemma StepCountsQuota(l: Ledger, op: Op, quota: Key)
    ensures Used(Step(l, op), quota) == Used(l, quota) + if Gates(l, op, quota) then 1 else 0
  {
    match op
    case Batch(moves) =>
      if StageAll(l, {}, moves).Success? {
        WriteAllKeepsQuotas(l, StageAll(l, {}, moves).value.0);
      }
    case RefundNotice(t) => if HandleRefund(l, t).0 != l { RefundSplits(l, t); }
    case ReversalNotice(t) => if HandleReversal(l, t).0 != l { ReversalSplits(l, t); }
    case _ =>
  }

  /** A quota counter is exactly the number of credits it let through: neither
      duplicates nor refused credits use it up. */
  lemma {:induction false} QuotaCountsItsCredits(l: Ledger, ops: seq<Op>, quota: Key)
    ensures Used(Run(l, ops), quota) == Used(l, quota) + GatedCredits(l, ops, quota)
    decreases |ops|
  {
    if ops != [] {
      StepCountsQuota(l, ops[0], quota);
      QuotaCountsItsCredits(Step(l, ops[0]), ops[1..], quota);
    }
  }

  /** Every credit of the run that names this quota names a limit up to `limit`. */
  predicate LimitedBy(ops: seq<Op>, quota: Key, limit: int) {
    forall op :: op in ops && op.Credit? && op.gate.Some? && QuotaKey(op.user, op.reason, op.gate.value.period) == quota
      ==> op.gate.value.limit <= limit
  }

  /** However the credits race and repeat, no more than `limit` get through. */
  lemma {:induction false} QuotaIsNeverPassed(l: Ledger, ops: seq<Op>, quota: Key, limit: int)
    requires Used(l, quota) <= limit && LimitedBy(ops, quota, limit)
    ensures Used(Run(l, ops), quota) <= limit
    decreases |ops|
  {
    if ops != [] {
      StepCountsQuota(l, ops[0], quota);
      assert LimitedBy(ops[1..], quota, limit);
      QuotaIsNeverPassed(Step(l, ops[0]), ops[1..], quota, limit);
    }
  }

  // Apple transactions.

  /** However purchases, refunds and reversals of one Apple transaction repeat and
      overtake each other, it credits at most one user, once, and what it brings
      stays between 0 and what was paid for. */
  lemma AppleTransactionIsBounded(ops: seq<Op>, id: string)
    requires ValidRun(ops)
    ensures var l := After(ops);
            && (forall u, v :: BuyKey(u, id) in l.applied && BuyKey(v, id) in l.applied ==> u == v)
            && (forall u :: Occurrences(l.entries, BuyKey(u, id)) <= 1)
            && (Slot(id) !in l.claims ==> IapNet(l.entries, id) == 0)
            && (Slot(id) in l.claims ==> 0 <= IapNet(l.entries, id) <= l.claims[Slot(id)].amount)
            && (RecordSlot(id) in l.claims ==>
                  Slot(id) in l.claims && Bounded(l.claims[Slot(id)], l.claims[RecordSlot(id)]))
  {
    AfterIsSound(ops);
    var l := After(ops);
    assert SoundAt(l, id);
    NetIsBounded(l, id);
    forall u ensures Occurrences(l.entries, BuyKey(u, id)) <= 1 {
      KeyLabelsOneEntry(l, BuyKey(u, id));
    }
  }

  // Claims over time.

  lemma {:induction false} WriteAllKeepsClaims(l: Ledger, writes: seq<(Entry, Wallet)>)
    ensures WriteAll(l, writes).claims == l.claims
    decreases |writes|
  {
    if writes != [] {
      WriteAllKeepsClaims(LedgerModel.Write(l, writes[0].0, writes[0].1), writes[1..]);
    }
  }

  /** What an operation can do to claims: nothing, one pay-out, one record, or one
      record marked as reversed. */
  lemma ClaimsChange(l: Ledger, op: Op, d: DocKey)
    requires d in l.claims
    ensures d in Step(l, op).claims
    ensures Step(l, op).claims[d] == l.claims[d]
         || (op.PayOut? && d == Slot(op.transaction.id) && l.claims[d].user == Step(l, op).claims[d].user == op.user &&
             BuyKey(op.user, op.transaction.id) !in l.applied)
         || (op.ReversalNotice? && d == RecordSlot(op.transaction.id) &&
             Step(l, op).claims[d] == l.claims[d].(reversed := Step(l, op).claims[d].reversed))
  {
    match op
    case Batch(moves) =>
      if StageAll(l, {}, moves).Success? {
        WriteAllKeepsClaims(l, StageAll(l, {}, moves).value.0);
      }
    case Claim(guest, owner) =>
      if HandOver(l, guest, owner).0 != l {
        MovesWhenChanged(l, guest, owner);
        var e, w, f, v := HandOverWrites(l, guest, owner);
      }
    case PayOut(user, t, amount) =>
      if Purchase(l, user, t, amount).1.Success? && Purchase(l, user, t, amount).1.value.applied {
        PurchaseWrites(l, user, t, amount);
      }
    case RefundNotice(t) => if HandleRefund(l, t).0 != l { RefundSplits(l, t); }
    case ReversalNotice(t) => if HandleReversal(l, t).0 != l { ReversalSplits(l, t); }
    case _ =>
  }

  /** A claim is never removed and never changes hands. */
  lemma {:induction false} ClaimsKeepTheirOwners(l: Ledger, ops: seq<Op>, d: DocKey)
    requires d in l.claims
    ensures d in Run(l, ops).claims && Run(l, ops).claims[d].user == l.claims[d].user
    decreases |ops|
  {
    if ops != [] {
      ClaimsChange(l, ops[0], d);
      ClaimsKeepTheirOwners(Step(l, ops[0]), ops[1..], d);
    }
  }

  /** A purchase is fixed. */
  lemma {:induction false} PurchasesStay(l: Ledger, ops: seq<Op>, id: string)
    requires Sound(l) && ValidRun(ops) && Slot(id) in l.claims
    ensures var m := Run(l, ops); Sound(m) && Slot(id) in m.claims && m.claims[Slot(id)] == l.claims[Slot(id)]
    decreases |ops|
  {
    if ops != [] {
      assert SoundAt(l, id);
      ClaimsChange(l, ops[0], Slot(id));
      StepKeepsSound(l, ops[0]);
      PurchasesStay(Step(l, ops[0]), ops[1..], id);
    }
  }

  /** The REFUND of a purchase that was credited is acted on, whenever it comes, if
      and only if the purchase was credited to the account that its token names.
      One that was credited through a claimed guest is a mismatch for ever. */
  lemma RefundsFollowTheToken(ops: seq<Op>, user: string, t: Transaction, amount: int, later: seq<Op>,
                              refund: Transaction)
    requires ValidRun(ops) && ValidRun(later) && t.id != ""
    requires Purchase(After(ops), user, t, amount).1.Success? && Purchase(After(ops), user, t, amount).1.value.applied
    requires refund.id == t.id && refund.token == t.token && t.token.Some?
    requires refund.product == t.product && refund.environment == t.environment && Priceable(refund)
    ensures var m := Run(Purchase(After(ops), user, t, amount).0, later);
            var (end, r) := HandleRefund(m, refund);
            && (r.Success? && r.value.Some? <==> t.token == Some(user))
            && (t.token != Some(user) ==> end == m && r == Failure(RefundMismatch))
  {
    AfterIsSound(ops);
    var l := After(ops);
    PurchaseWrites(l, user, t, amount);
    StepKeepsSound(l, PayOut(user, t, amount));
    var bought := Purchase(l, user, t, amount).0;
    PurchasesStay(bought, later, t.id);
    var m := Run(bought, later);
    assert SoundAt(m, t.id);
    RefundAnswers(m, refund);
    if HandleRefund(m, refund).0 != m {
      RefundSplits(m, refund);
    }
  }

  /** A purchase and its refund record are fixed, but for what was given back. */
  lemma {:induction false} RecordsStay(l: Ledger, ops: seq<Op>, id: string)
    requires Sound(l) && ValidRun(ops) && Slot(id) in l.claims && RecordSlot(id) in l.claims
    ensures var m := Run(l, ops);
            && Sound(m) && Slot(id) in m.claims && RecordSlot(id) in m.claims
            && m.claims[Slot(id)] == l.claims[Slot(id)]
            && m.claims[RecordSlot(id)] == l.claims[RecordSlot(id)].(reversed := m.claims[RecordSlot(id)].reversed)
    decreases |ops|
  {
    if ops != [] {
      assert SoundAt(l, id);
      ClaimsChange(l, ops[0], Slot(id));
      ClaimsChange(l, ops[0], RecordSlot(id));
      StepKeepsSound(l, ops[0]);
      RecordsStay(Step(l, ops[0]), ops[1..], id);
    }
  }

  /** A reversal that comes before its refund is refused without a trace; when it
      comes again, whatever happened since the refund, it succeeds, gives back what
      is still due, and nothing of the purchase is missing. */
  lemma EarlyReversalIsMadeUp(ops: seq<Op>, refund: Transaction, between: seq<Op>, reversal: Transaction)
    requires ValidRun(ops) && ValidRun(between)
    requires Slot(refund.id) in After(ops).claims && RecordSlot(refund.id) !in After(ops).claims
    requires RefundTarget(refund).Some?
    requires Plan(refund, RefundTarget(refund).value, After(ops).claims[Slot(refund.id)]).Success?
    requires reversal.id == refund.id && reversal.token == RefundTarget(refund)
    requires reversal.product == refund.product && reversal.environment == refund.environment
    ensures HandleReversal(After(ops), reversal) == (After(ops), Failure(RefundNotYetProcessed))
    ensures var l, id, user := After(ops), refund.id, RefundTarget(refund).value;
            var middle := Run(HandleRefund(l, refund).0, between);
            var (end, r) := HandleReversal(middle, reversal);
            && r.Success? && RecordSlot(id) in middle.claims
            && var due := middle.claims[RecordSlot(id)].recovered - middle.claims[RecordSlot(id)].reversed;
               && due >= 0 && WalletOf(end, user).balance == WalletOf(middle, user).balance + due
               && IapNet(end.entries, id) == l.claims[Slot(id)].amount
  {
    var l := After(ops);
    AfterIsSound(ops);
    RefundIsRecorded(l, refund);
    var first := HandleRefund(l, refund).0;
    RecordsStay(first, between, refund.id);
    ReversalCompletes(Run(first, between), reversal);
  }

  /** A first valid refund leaves a record that names its account. */
  lemma RefundIsRecorded(l: Ledger, t: Transaction)
    requires Sound(l) && Slot(t.id) in l.claims && RecordSlot(t.id) !in l.claims && RefundTarget(t).Some?
    requires Plan(t, RefundTarget(t).value, l.claims[Slot(t.id)]).Success?
    ensures var m := HandleRefund(l, t).0;
            && Sound(m) && Slot(t.id) in m.claims && m.claims[Slot(t.id)] == l.claims[Slot(t.id)]
            && RecordSlot(t.id) in m.claims
            && var record := m.claims[RecordSlot(t.id)];
               && record.user == RefundTarget(t).value
               && record.product == t.product && record.environment == t.environment
  {
    assert WalletOf(l, RefundTarget(t).value).balance >= 0 by { assert Core(l); }
    RefundTakes(l, t);
    StepKeepsSound(l, RefundNotice(t));
  }

  /** A reversal that agrees with the record succeeds, gives back what is still due
      and leaves the whole purchase with its owner. */
  lemma ReversalCompletes(l: Ledger, t: Transaction)
    requires Sound(l) && Slot(t.id) in l.claims && RecordSlot(t.id) in l.claims && t.token.Some?
    requires Remaining(t, t.token.value, l.claims[RecordSlot(t.id)]).Success?
    ensures var (end, r) := HandleReversal(l, t);
            var due := l.claims[RecordSlot(t.id)].recovered - l.claims[RecordSlot(t.id)].reversed;
            && r.Success? && due >= 0
            && WalletOf(end, t.token.value).balance == WalletOf(l, t.token.value).balance + due
            && IapNet(end.entries, t.id) == l.claims[Slot(t.id)].amount
  {
    assert SoundAt(l, t.id);
    ReversalGivesBack(l, t);
    ReversalAnswers(l, t);
    ReversalKeepsAt(l, t, t.id);
  }

  lemma ReversalAnswers(l: Ledger, t: Transaction)
    requires t.token.Some? && RecordSlot(t.id) in l.claims
    requires Remaining(t, t.token.value, l.claims[RecordSlot(t.id)]).Success?
    ensures HandleReversal(l, t).1.Success?
  {
    var user := t.token.value;
    var remaining := (record: Document) => Remaining(t, user, record);
    assert ReverseRefund(l, user, Slot(t.id), RecordSlot(t.id), ReturnKey(user, t.id), remaining).1.Success?;
  }

  // Guests.

  /** Once a hand-over moved something, the pair never moves anything again, in
      either direction, whatever happens in between; and it never fails. */
  lemma HandedOverOnce(ops: seq<Op>, guest: string, owner: string, later: seq<Op>)
    requires ValidRun(ops) && ValidRun(later)
    ensures var first := HandOver(After(ops), guest, owner);
            var end := Run(first.0, later);
            && first.1.Success?
            && (first.1.value > 0 ==> HandOver(end, guest, owner) == (end, Success(0)))
            && (first.1.value > 0 ==> HandOver(end, owner, guest) == (end, Success(0)))
  {
    AfterIsSound(ops);
    var l := After(ops);
    HandOverOutcome(l, guest, owner);
    StepKeepsSound(l, Claim(guest, owner));
    var first := HandOver(l, guest, owner).0;
    RunKeepsSound(first, later);
    LedgerIsAppendOnly(first, later);
    HandOverOutcome(Run(first, later), guest, owner);
    HandOverOutcome(Run(first, later), owner, guest);
  }

  // All wallets together.

  function TotalOf(es: seq<Entry>): int {
    if es == [] then 0 else TotalOf(es[..|es| - 1]) + es[|es| - 1].delta
  }

  predicate Distinct(users: seq<string>) { forall i, j :: 0 <= i < j < |users| ==> users[i] != users[j] }

  function BalancesOf(l: Ledger, users: seq<string>): int {
    if users == [] then 0 else BalancesOf(l, users[..|users| - 1]) + WalletOf(l, users[|users| - 1]).balance
  }

  function SumsOf(es: seq<Entry>, users: seq<string>): int {
    if users == [] then 0 else SumsOf(es, users[..|users| - 1]) + SumOf(es, users[|users| - 1])
  }

  lemma {:induction false} SumsAppend(es: seq<Entry>, e: Entry, users: seq<string>)
    requires Distinct(users)
    ensures SumsOf(es + [e], users) == SumsOf(es, users) + if e.user in users then e.delta else 0
  {
    if users != [] {
      var front, last := users[..|users| - 1], users[|users| - 1];
      SumsAppend(es, e, front);
      SumOfAppend(es, e, last);
      assert e.user in users <==> e.user in front || e.user == last;
    }
  }

  lemma {:induction false} SumsAreTotal(es: seq<Entry>, users: seq<string>)
    requires Distinct(users) && forall e :: e in es ==> e.user in users
    ensures SumsOf(es, users) == TotalOf(es)
  {
    if es == [] {
      NothingSums(users);
    } else {
      var front, last := es[..|es| - 1], es[|es| - 1];
      assert es == front + [last] && last in es;
      SumsAreTotal(front, users);
      SumsAppend(front, last, users);
    }
  }

  lemma {:induction false} NothingSums(users: seq<string>)
    ensures SumsOf([], users) == 0
  {
    if users != [] {
      NothingSums(users[..|users| - 1]);
    }
  }

  lemma {:induction false} BalancesAreSums(l: Ledger, users: seq<string>)
    requires Core(l)
    ensures BalancesOf(l, users) == SumsOf(l.entries, users)
  {
    if users != [] {
      BalancesAreSums(l, users[..|users| - 1]);
      ProjectBalances(l.entries, users[|users| - 1]);
    }
  }

  /** The balances of everybody who ever moved a shard add up to the ledger. */
  lemma BalancesAddUpToLedger(l: Ledger, users: seq<string>)
    requires Core(l) && Distinct(users) && forall e :: e in l.entries ==> e.user in users
    ensures BalancesOf(l, users) == TotalOf(l.entries)
  {
    BalancesAreSums(l, users);
    SumsAreTotal(l.entries, users);
  }

  // Other features and one AI generation.

  /** May this operation write an entry under `key`? */
  predicate MayWrite(op: Op, key: Key) {
    match op
    case Credit(user, _, reason, event, _) => KeyFor(user, reason, event) == Some(key)
    case Debit(user, _, reason, event) => KeyFor(user, reason, event) == Some(key)
    case Batch(moves) => exists m :: m in moves && m.Key() == key
    case _ => !OpenReason(key.reason)
  }

  lemma {:induction false} SerialKeepsOthers(l: Ledger, moves: seq<Move>, key: Key)
    requires SerialAll(l, moves).Success? && key !in l.applied
    requires forall m :: m in moves ==> m.Key() != key
    ensures key !in SerialAll(l, moves).value.0.applied
    decreases |moves|
  {
    if moves != [] {
      var m := moves[0];
      assert m.Key() != key;
      SerialKeepsOthers(ApplyKeyed(l, m.user, m.delta, m.reason, m.event).0, moves[1..], key);
    }
  }

  lemma OnlyWrites(l: Ledger, op: Op, key: Key)
    requires !MayWrite(op, key) && key !in l.applied
    ensures key !in Step(l, op).applied
  {
    match op
    case Batch(moves) =>
      StagedRefinesSerial(l, moves);
      if StageAll(l, {}, moves).Success? {
        SerialKeepsOthers(l, moves, key);
      }
    case Claim(guest, owner) =>
      if HandOver(l, guest, owner).0 != l {
        MovesWhenChanged(l, guest, owner);
        var e, w, f, v := HandOverWrites(l, guest, owner);
      }
    case RefundNotice(t) => if HandleRefund(l, t).0 != l { RefundSplits(l, t); }
    case ReversalNotice(t) => if HandleReversal(l, t).0 != l { ReversalSplits(l, t); }
    case _ =>
  }

  /** Every operation of another feature is one of the steps the generation
      protocol allows for: it keeps the invariant and leaves the generation's two
      keys alone. */
  lemma OtherFeaturesAreElsewhere(l: Ledger, op: Op, job: Protocol.Job)
    requires Sound(l) && ValidOp(op)
    requires !MayWrite(op, job.DebitKey()) && !MayWrite(op, job.RefundKey())
    ensures Protocol.ElsewhereMoves(l, Step(l, op), job)
  {
    StepKeepsSound(l, op);
    StepExtends(l, op);
    forall k | k == job.DebitKey() || k == job.RefundKey() ensures k in l.applied <==> k in Step(l, op).applied {
      if k !in l.applied {
        OnlyWrites(l, op, k);
      }
    }
  }

  // The other commits of the optimistic store.

  /** An operation that does not go through `apply`. */
  predicate NotApply(op: Op) {
    match op
    case Claim(_, _) => true
    case RefundNotice(_) => true
    case ReversalNotice(_) => true
    case Batch(moves) => forall m :: m in moves ==> !Store.ApplyReason(m.reason)
    case _ => false
  }

  lemma OtherClaims(l: Ledger, op: Op)
    requires Sound(l) && NotApply(op)
    ensures forall d :: d in l.claims ==> d in Step(l, op).claims && Step(l, op).claims[d].user == l.claims[d].user
    ensures forall d :: d in Step(l, op).claims && d !in l.claims ==> d.collection.Refunds?
  {
    match op
    case Batch(moves) =>
      if Step(l, op) != l { BatchLeavesClaims(l, StageAll(l, {}, moves).value.0); }
    case Claim(guest, owner) =>
      if Step(l, op) != l {
        MovesWhenChanged(l, guest, owner);
        var e, w, f, v := HandOverWrites(l, guest, owner);
      }
    case RefundNotice(t) => if Step(l, op) != l { RefundSplits(l, t); }
    case ReversalNotice(t) => if Step(l, op) != l { ReversalSplits(l, t); }
    case _ =>
  }

  lemma {:induction false} BatchLeavesClaims(l: Ledger, writes: seq<(Entry, Wallet)>)
    ensures WriteAll(l, writes).claims == l.claims
    decreases |writes|
  {
    if writes != [] { BatchLeavesClaims(LedgerModel.Write(l, writes[0].0, writes[0].1), writes[1..]); }
  }

  lemma OtherKeys(l: Ledger, op: Op, k: Key)
    requires NotApply(op) && k !in l.applied && Store.ApplyReason(k.reason) && !k.reason.IapPurchase?
    ensures k !in Step(l, op).applied
  {
    assert OpenReason(k.reason);
    if op.Batch? {
      forall m | m in op.moves ensures m.Key() != k { assert m.Key().reason == m.reason; }
    }
    OnlyWrites(l, op, k);
  }

  lemma OtherPurchaseKeys(l: Ledger, op: Op, k: Key)
    requires NotApply(op) && k !in l.applied && k.reason.IapPurchase?
    ensures k !in Step(l, op).applied
  {
    match op
    case Batch(moves) =>
      forall m | m in moves ensures m.Key() != k { assert m.Key().reason == m.reason; }
      OnlyWrites(l, op, k);
    case Claim(guest, owner) =>
      if Step(l, op) != l {
        MovesWhenChanged(l, guest, owner);
        var e, w, f, v := HandOverWrites(l, guest, owner);
      }
    case RefundNotice(t) => if Step(l, op) != l { RefundSplits(l, t); }
    case ReversalNotice(t) => if Step(l, op) != l { ReversalSplits(l, t); }
    case _ =>
  }

  /** Hand-overs, Apple notices and staged batches of other features are commits that
      the interleavings of the optimistic store allow for. */
  lemma OtherOperationsAreCommits(l: Ledger, op: Op)
    requires Sound(l) && ValidOp(op) && NotApply(op)
    ensures Store.OtherCommit(l, Step(l, op))
  {
    var m := Step(l, op);
    assert Core(m) by { StepKeepsSound(l, op); }
    assert Extends(l, m) by { StepExtends(l, op); }
    OtherClaims(l, op);
    forall k | k in m.applied && k !in l.applied ensures !Store.ApplyReason(k.reason) {
      if k.reason.IapPurchase? {
        OtherPurchaseKeys(l, op, k);
      } else if Store.ApplyReason(k.reason) {
        OtherKeys(l, op, k);
      }
    }
  }
}
