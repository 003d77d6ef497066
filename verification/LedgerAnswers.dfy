/** What each ledger operation answers and does, told by the history of the ledger:
    which entries there are, and which credits went through. */
module LedgerAnswers {
  import opened Wrappers
  import opened LedgerModel
  import opened LedgerInvariant
  import opened IapModel
  import opened IapLifecycle
  import opened LedgerRuns
  import opened LedgerTheorems

  /** One entry was appended, its owner's wallet moved by it, and nothing else did. */
  ghost predicate Booked(l: Ledger, m: Ledger, user: string, delta: int, reason: ShardReason, key: Option<Key>,
                         wallet: Wallet) {
    && m.entries == l.entries + [Entry(user, delta, WalletOf(l, user).balance + delta, reason, key)]
    && WalletOf(m, user) == wallet && wallet.balance == WalletOf(l, user).balance + delta
    && (forall u :: u != user ==> WalletOf(m, u) == WalletOf(l, u))
    && (forall k :: k in m.applied <==> k in l.applied || key == Some(k))
  }

  /** A wallet after an ordinary movement: what comes in is earned, what goes out is spent. */
  function Earning(w: Wallet, amount: int): Wallet {
    Wallet(w.balance + amount, w.earned + amount, w.spent, w.refunded, w.reversed)
  }

  function Spending(w: Wallet, amount: int): Wallet {
    Wallet(w.balance - amount, w.earned, w.spent + amount, w.refunded, w.reversed)
  }

  lemma WriteBooks(l: Ledger, e: Entry, w: Wallet)
    requires e.balanceAfter == w.balance == WalletOf(l, e.user).balance + e.delta
    ensures Booked(l, Write(l, e, w), e.user, e.delta, e.reason, e.key, w)
  {
  }

  /** The ledger has an entry of this user for this reason and event. */
  ghost predicate Known(l: Ledger, user: string, reason: ShardReason, event: Event) {
    exists e :: e in l.entries && e.user == user && e.reason == reason && e.key.Some? && e.key.value.event == event
  }

  lemma KnownIsApplied(l: Ledger, user: string, reason: ShardReason, event: Event)
    requires Core(l)
    ensures Known(l, user, reason, event) <==> Key(user, reason, event) in l.applied
  {
    var k := Key(user, reason, event);
    if e :| e in l.entries && e.user == user && e.reason == reason && e.key.Some? && e.key.value.event == event {
      assert e.key.value == k;
    }
    if k in l.applied {
      assert l.applied[k] in l.entries && l.applied[k].key == Some(k);
    }
  }

  // Quotas.

  /** This is a credit of the user for the reason, limited in this period. */
  predicate IsLimited(op: Op, user: string, reason: ShardReason, period: string) {
    op.Credit? && op.user == user && op.reason == reason && op.gate.Some? && op.gate.value.period == period
  }

  /** How many such credits of the run wrote an entry. */
  function WentThrough(l: Ledger, ops: seq<Op>, user: string, reason: ShardReason, period: string): nat
    decreases |ops|
  {
    if ops == [] then 0
    else
      var now := IsLimited(ops[0], user, reason, period) && |Step(l, ops[0]).entries| > |l.entries|;
      (if now then 1 else 0) + WentThrough(Step(l, ops[0]), ops[1..], user, reason, period)
  }

  lemma QuotasDiffer(user: string, reason: ShardReason, period: string, u: string, r: ShardReason, p: string)
    requires QuotaKey(user, reason, period) == QuotaKey(u, r, p)
    ensures user == u && reason == r && period == p
  {
    assert ("quota:" + period)[6..] == period && ("quota:" + p)[6..] == p;
  }

  /** The counter of one user, reason and period moves by that user's own credits for
      that reason in that period, and by nothing else. */
  lemma OthersLeaveTheQuota(l: Ledger, op: Op, user: string, reason: ShardReason, period: string)
    ensures var k := QuotaKey(user, reason, period);
            var now := IsLimited(op, user, reason, period) && |Step(l, op).entries| > |l.entries|;
            Used(Step(l, op), k) == Used(l, k) + if now then 1 else 0
  {
    var k := QuotaKey(user, reason, period);
    StepCountsQuota(l, op, k);
    if op.Credit? && op.gate.Some? && QuotaKey(op.user, op.reason, op.gate.value.period) == k {
      QuotasDiffer(op.user, op.reason, op.gate.value.period, user, reason, period);
    }
  }

  lemma {:induction false} QuotaIsWentThrough(l: Ledger, ops: seq<Op>, user: string, reason: ShardReason,
                                              period: string)
    ensures var k := QuotaKey(user, reason, period);
            Used(Run(l, ops), k) == Used(l, k) + WentThrough(l, ops, user, reason, period)
    decreases |ops|
  {
    if ops != [] {
      OthersLeaveTheQuota(l, ops[0], user, reason, period);
      QuotaIsWentThrough(Step(l, ops[0]), ops[1..], user, reason, period);
    }
  }

  // Credits and debits.

  predicate Usable(amount: int) { 1 <= amount <= 100_000 }

  /** The period's credits are used up. */
  predicate UsedUp(ops: seq<Op>, user: string, reason: ShardReason, gate: Option<Gate>) {
    gate.Some? && WentThrough(EMPTY_LEDGER, ops, user, reason, gate.value.period) >= gate.value.limit
  }

  lemma CreditTable(l: Ledger, user: string, amount: int, reason: ShardReason, event: Option<Event>, gate: Option<Gate>)
    requires WalletOf(l, user).balance >= 0
    ensures var (m, r) := Credited(l, user, amount, reason, event, gate);
            var known := event.Some? && Key(user, reason, event.value) in l.applied;
            var full := gate.Some? && Used(l, QuotaKey(user, reason, gate.value.period)) >= gate.value.limit;
            if !Usable(amount) then (m, r) == (l, Failure(InvalidShardAmount))
            else if known then
              m == l && r.Success? && !r.value.applied && r.value.entry == l.applied[Key(user, reason, event.value)]
            else if full then (m, r) == (l, Failure(QuotaExceeded))
            else
              && r.Success? && r.value.applied && r.value.wallet == WalletOf(m, user)
              && m.entries == l.entries + [r.value.entry]
              && Booked(l, m, user, amount, reason, KeyFor(user, reason, event), Earning(WalletOf(l, user), amount))
  {
  }

  /** What a credit does after any run. An amount out of range is refused; an event
      that the user's ledger already has for this reason is answered by its entry; a
      period in which `limit` credits went through is refused; every other credit
      writes one entry. */
  lemma CreditAnswers(ops: seq<Op>, user: string, amount: int, reason: ShardReason, event: Option<Event>,
                      gate: Option<Gate>)
    requires ValidRun(ops)
    ensures var l := After(ops);
            var (m, r) := Credited(l, user, amount, reason, event, gate);
            var known := event.Some? && Known(l, user, reason, event.value);
            && (r == Failure(InvalidShardAmount) <==> !Usable(amount))
            && (r.Success? && !r.value.applied <==> Usable(amount) && known)
            && (r == Failure(QuotaExceeded) <==> Usable(amount) && !known && UsedUp(ops, user, reason, gate))
            && (r.Success? && r.value.applied <==> Usable(amount) && !known && !UsedUp(ops, user, reason, gate))
            && (if r.Success? && r.value.applied
                then Booked(l, m, user, amount, reason, KeyFor(user, reason, event), Earning(WalletOf(l, user), amount))
                else m == l)
  {
    AfterIsSound(ops);
    var l := After(ops);
    if event.Some? { KnownIsApplied(l, user, reason, event.value); }
    if gate.Some? { QuotaIsWentThrough(EMPTY_LEDGER, ops, user, reason, gate.value.period); }
    assert WalletOf(l, user).balance >= 0;
    CreditTable(l, user, amount, reason, event, gate);
  }

  lemma DebitTable(l: Ledger, user: string, amount: int, reason: ShardReason, event: Option<Event>)
    ensures var (m, r) := Debited(l, user, amount, reason, event);
            var known := event.Some? && Key(user, reason, event.value) in l.applied;
            if !Usable(amount) then (m, r) == (l, Failure(InvalidShardAmount))
            else if known then
              m == l && r.Success? && !r.value.applied && r.value.entry == l.applied[Key(user, reason, event.value)]
            else if WalletOf(l, user).balance < amount then (m, r) == (l, Failure(InsufficientShards))
            else
              && r.Success? && r.value.applied && r.value.wallet == WalletOf(m, user)
              && m.entries == l.entries + [r.value.entry]
              && Booked(l, m, user, -amount, reason, KeyFor(user, reason, event), Spending(WalletOf(l, user), amount))
  {
  }

  /** What a debit does after any run: it goes through if and only if the amount is in
      range, the event is new and the balance covers it. */
  lemma DebitAnswers(ops: seq<Op>, user: string, amount: int, reason: ShardReason, event: Option<Event>)
    requires ValidRun(ops)
    ensures var l := After(ops);
            var (m, r) := Debited(l, user, amount, reason, event);
            var known := event.Some? && Known(l, user, reason, event.value);
            && (r == Failure(InvalidShardAmount) <==> !Usable(amount))
            && (r.Success? && !r.value.applied <==> Usable(amount) && known)
            && (r == Failure(InsufficientShards) <==> Usable(amount) && !known && SumOf(l.entries, user) < amount)
            && (r.Success? && r.value.applied <==> Usable(amount) && !known && SumOf(l.entries, user) >= amount)
            && (if r.Success? && r.value.applied
                then Booked(l, m, user, -amount, reason, KeyFor(user, reason, event),
                            Spending(WalletOf(l, user), amount))
                else m == l)
  {
    AfterIsSound(ops);
    WalletsMatchLedger(ops, user);
    var l := After(ops);
    if event.Some? { KnownIsApplied(l, user, reason, event.value); }
    DebitTable(l, user, amount, reason, event);
  }

  // Apple purchases.

  lemma PurchaseTable(l: Ledger, user: string, t: Transaction, amount: int)
    requires WalletOf(l, user).balance >= 0
    ensures var (m, r) := Purchase(l, user, t, amount);
            var k := BuyKey(user, t.id);
            if !Usable(amount) then (m, r) == (l, Failure(InvalidShardAmount))
            else if Slot(t.id) in l.claims && l.claims[Slot(t.id)].user != user then
              (m, r) == (l, Failure(ClaimOwnedByAnother))
            else if k in l.applied then m == l && r.Success? && !r.value.applied && r.value.entry == l.applied[k]
            else
              && r.Success? && r.value.applied
              && Booked(l, m, user, amount, IapPurchase, Some(k), Earning(WalletOf(l, user), amount))
              && m.claims == l.claims[Slot(t.id) := Document(user, t.product, t.environment, amount, 0, 0, 0, 0)]
  {
  }

  /** After any run a purchase is paid out if and only if nobody was paid for it yet:
      to its owner it answers with the entry there is, to everybody else it is refused. */
  lemma PurchaseAnswers(ops: seq<Op>, user: string, t: Transaction, amount: int)
    requires ValidRun(ops)
    ensures var l := After(ops);
            var (m, r) := Purchase(l, user, t, amount);
            && (r == Failure(InvalidShardAmount) <==> !Usable(amount))
            && (r == Failure(ClaimOwnedByAnother) <==>
                  Usable(amount) && exists v :: v != user && Known(l, v, IapPurchase, Named(t.id)))
            && (r.Success? && !r.value.applied <==> Usable(amount) && Known(l, user, IapPurchase, Named(t.id)))
            && (r.Success? && r.value.applied <==>
                  Usable(amount) && forall v :: !Known(l, v, IapPurchase, Named(t.id)))
            && (if r.Success? && r.value.applied
                then Booked(l, m, user, amount, IapPurchase, Some(Key(user, IapPurchase, Named(t.id))),
                            Earning(WalletOf(l, user), amount))
                else m == l)
  {
    AfterIsSound(ops);
    var l := After(ops);
    assert SoundAt(l, t.id);
    assert WalletOf(l, user).balance >= 0;
    PurchaseTable(l, user, t, amount);
    forall v ensures Known(l, v, IapPurchase, Named(t.id)) <==> BuyKey(v, t.id) in l.applied {
      KnownIsApplied(l, v, IapPurchase, Named(t.id));
    }
    if Slot(t.id) in l.claims {
      assert Known(l, l.claims[Slot(t.id)].user, IapPurchase, Named(t.id));
    }
  }

  // Apple refunds and reversals.

  /** How much of the purchase a REFUND asks for. */
  function Share(amount: int, t: Transaction): int
    requires Priceable(t)
  {
    if t.revocation.Full? then amount
    else
      var floor := amount * t.percentage.value / 100_000;
      if floor < 1 then 1 else floor
  }

  lemma ShareIsRequested(amount: int, t: Transaction)
    requires amount > 0 && Priceable(t)
    ensures RequestedAmount(amount, t.revocation, t.percentage) == Success(Share(amount, t))
  {
    RequestedIsRoundedShare(amount, t.revocation, t.percentage);
  }

  /** What a REFUND that is acted on answers and does: the first takes the smaller of
      balance and share, as a refund and not as spending, and says so; a repetition
      changes nothing and tells again what was taken. */
  lemma RefundAmounts(l: Ledger, t: Transaction)
    requires Sound(l) && Slot(t.id) in l.claims && Matches(t, l.claims[Slot(t.id)]) && Priceable(t)
    ensures var user, w := t.token.value, WalletOf(l, t.token.value);
            var share := Share(l.claims[Slot(t.id)].amount, t);
            var (m, r) := HandleRefund(l, t);
            && r.Success? && r.value.Some?
            && var answer := r.value.value;
               && (answer.applied <==> RecordSlot(t.id) !in l.claims)
               && answer.wallet == WalletOf(m, user)
               && if RecordSlot(t.id) in l.claims
                  then m == l && answer.requested == l.claims[RecordSlot(t.id)].requested
                              && answer.recovered == l.claims[RecordSlot(t.id)].recovered
                  else && answer.requested == share
                       && answer.recovered == (if w.balance < share then w.balance else share)
                       && TookBack(l, m, t, user, answer.recovered)
  {
    assert SoundAt(l, t.id);
    assert WalletOf(l, t.token.value).balance >= 0 by { assert Core(l); }
    ShareIsRequested(l.claims[Slot(t.id)].amount, t);
    RefundTable(l, t);
  }

  /** The ledger after taking this much back: one entry, or none if nothing was there. */
  ghost predicate TookBack(l: Ledger, m: Ledger, t: Transaction, user: string, recovered: int) {
    var w := WalletOf(l, user);
    if recovered == 0 then m == l.(claims := m.claims)
    else Booked(l, m, user, -recovered, IapRefund, Some(Key(user, IapRefund, Named(t.id))),
                Wallet(w.balance - recovered, w.earned, w.spent, w.refunded + recovered, w.reversed))
  }

  lemma RefundTable(l: Ledger, t: Transaction)
    requires Slot(t.id) in l.claims && Matches(t, l.claims[Slot(t.id)]) && Priceable(t)
    requires l.claims[Slot(t.id)].amount > 0 && WalletOf(l, t.token.value).balance >= 0
    requires var amount := l.claims[Slot(t.id)].amount;
             RequestedAmount(amount, t.revocation, t.percentage) == Success(Share(amount, t)) && Share(amount, t) > 0
    ensures var user, w := t.token.value, WalletOf(l, t.token.value);
            var share := Share(l.claims[Slot(t.id)].amount, t);
            var (m, r) := HandleRefund(l, t);
            && r.Success? && r.value.Some?
            && var answer := r.value.value;
               && (answer.applied <==> RecordSlot(t.id) !in l.claims)
               && answer.wallet == WalletOf(m, user)
               && if RecordSlot(t.id) in l.claims
                  then m == l && answer.requested == l.claims[RecordSlot(t.id)].requested
                              && answer.recovered == l.claims[RecordSlot(t.id)].recovered
                  else && answer.requested == share
                       && answer.recovered == (if w.balance < share then w.balance else share)
                       && TookBack(l, m, t, user, answer.recovered)
  {
    var user := t.token.value;
    var document := Document("", t.product, t.environment, 0, 0, 0, 0, 0);
    var plan := (claim: Document) => Plan(t, user, claim);
    var done := IapModel.Refund(l, user, Slot(t.id), RecordSlot(t.id), document, BackKey(user, t.id), plan);
    assert HandleRefund(l, t) == (done.0, Success(Some(done.1.value)));
  }

  /** When a REFUND_REVERSED is skipped, an error or acted on, and what it then
      answers and does: it gives back what was taken and not yet given back. */
  lemma ReversalAmounts(l: Ledger, t: Transaction)
    requires Sound(l)
    ensures var (m, r) := HandleReversal(l, t);
            if t.token.None? || (RecordSlot(t.id) !in l.claims && Slot(t.id) !in l.claims) then
              (m, r) == (l, Success(None))
            else if RecordSlot(t.id) !in l.claims then (m, r) == (l, Failure(RefundNotYetProcessed))
            else if !Matches(t, l.claims[RecordSlot(t.id)]) then (m, r) == (l, Failure(RefundMismatch))
            else
              && r.Success? && r.value.Some?
              && var due := l.claims[RecordSlot(t.id)].recovered - l.claims[RecordSlot(t.id)].reversed;
                 && r.value.value.restored == due >= 0 && (r.value.value.applied <==> due > 0)
                 && r.value.value.wallet == WalletOf(m, t.token.value)
                 && GaveBack(l, m, t, t.token.value, due)
  {
    assert SoundAt(l, t.id);
    ReversalTable(l, t);
  }

  ghost predicate GaveBack(l: Ledger, m: Ledger, t: Transaction, user: string, restored: int) {
    var w := WalletOf(l, user);
    if restored == 0 then m == l
    else Booked(l, m, user, restored, IapRefundReversed, Some(Key(user, IapRefundReversed, Named(t.id))),
                Wallet(w.balance + restored, w.earned, w.spent, w.refunded, w.reversed + restored))
  }

  lemma ReversalTable(l: Ledger, t: Transaction)
    requires RecordSlot(t.id) in l.claims ==>
               l.claims[RecordSlot(t.id)].recovered >= l.claims[RecordSlot(t.id)].reversed
    ensures var (m, r) := HandleReversal(l, t);
            if t.token.None? || (RecordSlot(t.id) !in l.claims && Slot(t.id) !in l.claims) then
              (m, r) == (l, Success(None))
            else if RecordSlot(t.id) !in l.claims then (m, r) == (l, Failure(RefundNotYetProcessed))
            else if !Matches(t, l.claims[RecordSlot(t.id)]) then (m, r) == (l, Failure(RefundMismatch))
            else
              && r.Success? && r.value.Some?
              && var due := l.claims[RecordSlot(t.id)].recovered - l.claims[RecordSlot(t.id)].reversed;
                 && r.value.value.restored == due && (r.value.value.applied <==> due > 0)
                 && r.value.value.wallet == WalletOf(m, t.token.value)
                 && GaveBack(l, m, t, t.token.value, due)
  {
    if t.token.Some? {
      var user := t.token.value;
      var remaining := (record: Document) => Remaining(t, user, record);
      var done := ReverseRefund(l, user, Slot(t.id), RecordSlot(t.id), ReturnKey(user, t.id), remaining);
      assert HandleReversal(l, t).0 == (if done.1.Failure? && done.1.error.RefundRecordMissing? then l else done.0);
    }
  }
}
