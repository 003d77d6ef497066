/** What holds between the claim of a purchase, the record of its refund and the
    ledger, and that credits, refunds and reversals all keep it. */
module IapLifecycle {
  import opened Wrappers
  import opened LedgerModel
  import opened LedgerInvariant
  import opened IapModel

  predicate IapReason(reason: ShardReason) { reason.IapPurchase? || reason.IapRefund? || reason.IapRefundReversed? }

  /** Does this entry belong to the Apple transaction `id`, whoever its owner is? */
  predicate About(e: Entry, id: string) {
    e.key.Some? && IapReason(e.key.value.reason) && e.key.value.event == Named(id)
  }

  /** What transaction `id` has moved in all, over every user. */
  function IapNet(es: seq<Entry>, id: string): int {
    if es == [] then 0
    else IapNet(es[..|es| - 1], id) + if About(es[|es| - 1], id) then es[|es| - 1].delta else 0
  }

  lemma IapNetAppend(es: seq<Entry>, e: Entry, id: string)
    ensures IapNet(es + [e], id) == IapNet(es, id) + if About(e, id) then e.delta else 0
  {
    assert (es + [e])[..|es|] == es;
  }

  /** What the documents say is left of the purchase. */
  function Kept(l: Ledger, id: string): int {
    (if Slot(id) in l.claims then l.claims[Slot(id)].amount else 0)
    - (if RecordSlot(id) in l.claims then l.claims[RecordSlot(id)].recovered - l.claims[RecordSlot(id)].reversed else 0)
  }

  /** A purchase claim stands exactly while its owner's credit is in the ledger,
      and it has one owner. */
  ghost predicate PurchaseOk(l: Ledger, id: string) {
    && (Slot(id) in l.claims ==> l.claims[Slot(id)].amount > 0 && BuyKey(l.claims[Slot(id)].user, id) in l.applied)
    && (forall u :: BuyKey(u, id) in l.applied ==> Slot(id) in l.claims && l.claims[Slot(id)].user == u)
  }

  /** 0 <= reversed <= recovered <= requested <= original, the original being the
      purchase claim's amount. */
  predicate Bounded(purchase: Document, record: Document) {
    && record.user == purchase.user && record.product == purchase.product
    && record.environment == purchase.environment && record.original == purchase.amount
    && 1 <= record.requested <= record.original
    && 0 <= record.recovered <= record.requested
    && (record.reversed == 0 || record.reversed == record.recovered)
  }

  ghost predicate RecordOk(l: Ledger, id: string) {
    && (RecordSlot(id) in l.claims ==> Slot(id) in l.claims && Bounded(l.claims[Slot(id)], l.claims[RecordSlot(id)]))
    && (forall u :: BackKey(u, id) in l.applied ==> RecordSlot(id) in l.claims && l.claims[RecordSlot(id)].user == u)
    && (forall u :: ReturnKey(u, id) in l.applied ==>
          && RecordSlot(id) in l.claims && l.claims[RecordSlot(id)].user == u
          && l.claims[RecordSlot(id)].reversed > 0)
  }

  ghost predicate SoundAt(l: Ledger, id: string) {
    PurchaseOk(l, id) && RecordOk(l, id) && IapNet(l.entries, id) == Kept(l, id)
  }

  ghost predicate IapSound(l: Ledger) {
    forall id: string :: SoundAt(l, id)
  }

  /** Nothing about `id` changed between two ledgers. */
  ghost predicate SameFor(l: Ledger, m: Ledger, id: string) {
    && (Slot(id) in l.claims <==> Slot(id) in m.claims)
    && (Slot(id) in l.claims ==> l.claims[Slot(id)] == m.claims[Slot(id)])
    && (RecordSlot(id) in l.claims <==> RecordSlot(id) in m.claims)
    && (RecordSlot(id) in l.claims ==> l.claims[RecordSlot(id)] == m.claims[RecordSlot(id)])
    && (forall k: Key :: IapReason(k.reason) && k.event == Named(id) ==> (k in l.applied <==> k in m.applied))
    && IapNet(l.entries, id) == IapNet(m.entries, id)
  }

  lemma SameForKeeps(l: Ledger, m: Ledger, id: string)
    requires SoundAt(l, id) && SameFor(l, m, id)
    ensures SoundAt(m, id)
  {
    forall u | BuyKey(u, id) in m.applied ensures Slot(id) in m.claims && m.claims[Slot(id)].user == u {
      assert BuyKey(u, id) in l.applied;
    }
    forall u | BackKey(u, id) in m.applied ensures RecordSlot(id) in m.claims && m.claims[RecordSlot(id)].user == u {
      assert BackKey(u, id) in l.applied;
    }
    forall u | ReturnKey(u, id) in m.applied
      ensures RecordSlot(id) in m.claims && m.claims[RecordSlot(id)].user == u && m.claims[RecordSlot(id)].reversed > 0
    {
      assert ReturnKey(u, id) in l.applied;
    }
  }

  /** Writing an entry that is not about `id` changes nothing for `id`. */
  lemma WriteElsewhere(l: Ledger, e: Entry, w: Wallet, id: string)
    requires !About(e, id)
    ensures SameFor(l, LedgerModel.Write(l, e, w), id)
  {
    IapNetAppend(l.entries, e, id);
  }

  // Purchases.

  lemma PurchaseKeepsAt(l: Ledger, user: string, t: Transaction, amount: int, id: string)
    requires SoundAt(l, id)
    ensures SoundAt(Purchase(l, user, t, amount).0, id)
  {
    var (after, r) := Purchase(l, user, t, amount);
    if r.Success? && r.value.applied {
      var e := r.value.entry;
      IapNetAppend(l.entries, e, id);
      if id == t.id {
        PurchaseEnters(l, user, t, amount);
      } else {
        SameForKeeps(l, after, id);
      }
    }
  }

  /** What a pay-out that is written does. */
  lemma PurchaseWrites(l: Ledger, user: string, t: Transaction, amount: int)
    requires Purchase(l, user, t, amount).1.Success? && Purchase(l, user, t, amount).1.value.applied
    ensures var (after, r) := Purchase(l, user, t, amount);
            && amount > 0 && BuyKey(user, t.id) !in l.applied
            && (Slot(t.id) in l.claims ==> l.claims[Slot(t.id)].user == user)
            && r.value.entry.delta == amount && r.value.entry.key == Some(BuyKey(user, t.id))
            && after.entries == l.entries + [r.value.entry]
            && after.applied == l.applied[BuyKey(user, t.id) := r.value.entry]
            && after.claims == l.claims[Slot(t.id) := Document(user, t.product, t.environment, amount, 0, 0, 0, 0)]
  {
  }

  lemma PurchaseEnters(l: Ledger, user: string, t: Transaction, amount: int)
    requires SoundAt(l, t.id)
    requires Purchase(l, user, t, amount).1.Success? && Purchase(l, user, t, amount).1.value.applied
    ensures SoundAt(Purchase(l, user, t, amount).0, t.id)
  {
    var (after, r) := Purchase(l, user, t, amount);
    PurchaseWrites(l, user, t, amount);
    assert Slot(t.id) !in l.claims && RecordSlot(t.id) !in l.claims;
    IapNetAppend(l.entries, r.value.entry, t.id);
    FirstClaim(l, after, user, t.id);
  }

  lemma FirstClaim(l: Ledger, after: Ledger, user: string, id: string)
    requires PurchaseOk(l, id) && RecordOk(l, id) && Slot(id) !in l.claims && RecordSlot(id) !in l.claims
    requires after.applied.Keys == l.applied.Keys + {BuyKey(user, id)}
    requires Slot(id) in after.claims && after.claims[Slot(id)].user == user && after.claims[Slot(id)].amount > 0
    requires RecordSlot(id) !in after.claims
    ensures PurchaseOk(after, id) && RecordOk(after, id)
  {
    forall u | BuyKey(u, id) in after.applied ensures u == user {
      assert BuyKey(u, id) in l.applied || u == user;
    }
    forall u ensures BackKey(u, id) !in after.applied && ReturnKey(u, id) !in after.applied {
      assert BackKey(u, id) !in l.applied && ReturnKey(u, id) !in l.applied;
    }
  }

  // Refunds.

  /** A refund either changes nothing or takes `recovered` shards back. */
  lemma RefundSplits(l: Ledger, t: Transaction)
    requires HandleRefund(l, t).0 != l
    ensures RefundTarget(t).Some? && Slot(t.id) in l.claims && RecordSlot(t.id) !in l.claims
    ensures var user := RefundTarget(t).value;
            && Plan(t, user, l.claims[Slot(t.id)]).Success?
            && RefundKept(l, t, user, Plan(t, user, l.claims[Slot(t.id)]).value)
  {
    var user := RefundTarget(t).value;
    var document := Document("", t.product, t.environment, 0, 0, 0, 0, 0);
    var plan := (claim: Document) => Plan(t, user, claim);
    assert HandleRefund(l, t).0
        == IapModel.Refund(l, user, Slot(t.id), RecordSlot(t.id), document, BackKey(user, t.id), plan).0;
  }

  function Taken(l: Ledger, user: string, requested: int): int { Min(WalletOf(l, user).balance, requested) }

  function BackEntry(l: Ledger, t: Transaction, user: string, taken: int): Entry {
    Entry(user, -taken, WalletOf(l, user).balance - taken, IapRefund, Some(BackKey(user, t.id)))
  }

  ghost predicate RefundKept(l: Ledger, t: Transaction, user: string, planned: RefundPlan) {
    var taken := Taken(l, user, planned.requested);
    var e := BackEntry(l, t, user, taken);
    var base := if taken > 0 then LedgerModel.Write(l, e, Posted(WalletOf(l, user), -taken, IapRefund)) else l;
    HandleRefund(l, t).0
    == base.(claims := l.claims[RecordSlot(t.id) :=
         Document(user, t.product, t.environment, 0, planned.original, planned.requested, taken, 0)])
  }

  lemma RefundKeepsAt(l: Ledger, t: Transaction, id: string)
    requires SoundAt(l, id) && (RefundTarget(t).Some? ==> WalletOf(l, RefundTarget(t).value).balance >= 0)
    ensures SoundAt(HandleRefund(l, t).0, id)
  {
    var after := HandleRefund(l, t).0;
    if after != l {
      RefundSplits(l, t);
      var user := RefundTarget(t).value;
      var claim := l.claims[Slot(t.id)];
      var planned := Plan(t, user, claim).value;
      var taken := Taken(l, user, planned.requested);
      IapNetAppend(l.entries, BackEntry(l, t, user, taken), id);
      if id == t.id {
        RequestedIsRoundedShare(claim.amount, t.revocation, t.percentage);
        RefundEnters(l, after, t, user, planned);
      } else {
        SameForKeeps(l, after, id);
      }
    }
  }

  lemma RefundEnters(l: Ledger, after: Ledger, t: Transaction, user: string, planned: RefundPlan)
    requires SoundAt(l, t.id) && Slot(t.id) in l.claims && RecordSlot(t.id) !in l.claims
    requires Plan(t, user, l.claims[Slot(t.id)]) == Success(planned) && 1 <= planned.requested <= planned.original
    requires WalletOf(l, user).balance >= 0
    requires RefundKept(l, t, user, planned) && after == HandleRefund(l, t).0
    ensures SoundAt(after, t.id)
  {
    var taken := Taken(l, user, planned.requested);
    IapNetAppend(l.entries, BackEntry(l, t, user, taken), t.id);
    forall u | BackKey(u, t.id) in after.applied ensures u == user {
      assert BackKey(u, t.id) !in l.applied;
    }
    forall u ensures ReturnKey(u, t.id) !in after.applied {
      assert ReturnKey(u, t.id) !in l.applied;
    }
    forall u | BuyKey(u, t.id) in after.applied ensures after.claims[Slot(t.id)].user == u {
      assert BuyKey(u, t.id) in l.applied;
    }
  }

  /** A refund that changes something appends one entry, or none if nothing was
      there to take. */
  lemma RefundAppends(l: Ledger, t: Transaction) returns (e: Entry, w: Wallet, taken: bool)
    requires SoundAt(l, t.id) && HandleRefund(l, t).0 != l
    requires RefundTarget(t).Some? ==> WalletOf(l, RefundTarget(t).value).balance >= 0
    ensures (taken ==> Appendable(l, e, w)) && AsWritten(l, e, w, taken, HandleRefund(l, t).0)
  {
    RefundSplits(l, t);
    var user := RefundTarget(t).value;
    var planned := Plan(t, user, l.claims[Slot(t.id)]).value;
    RequestedIsRoundedShare(l.claims[Slot(t.id)].amount, t.revocation, t.percentage);
    var amount := Taken(l, user, planned.requested);
    e, w := BackEntry(l, t, user, amount), Posted(WalletOf(l, user), -amount, IapRefund);
    taken := amount > 0;
    assert BackKey(user, t.id) !in l.applied;
  }

  lemma RefundKeepsCore(l: Ledger, t: Transaction)
    requires Core(l) && SoundAt(l, t.id)
    ensures Core(HandleRefund(l, t).0)
  {
    if HandleRefund(l, t).0 != l {
      if RefundTarget(t).Some? {
        assert WalletOf(l, RefundTarget(t).value).balance >= 0;
      }
      var e, w, taken := RefundAppends(l, t);
      KeepsCoreWith(l, e, w, taken, HandleRefund(l, t).0);
    }
  }

  /** Wallets, entries and keys are those of `l` with one entry appended, or not. */
  predicate AsWritten(l: Ledger, e: Entry, w: Wallet, appended: bool, after: Ledger) {
    var base := if appended then LedgerModel.Write(l, e, w) else l;
    after.wallets == base.wallets && after.entries == base.entries && after.applied == base.applied
  }

  lemma KeepsCoreWith(l: Ledger, e: Entry, w: Wallet, appended: bool, after: Ledger)
    requires Core(l) && (appended ==> Appendable(l, e, w)) && AsWritten(l, e, w, appended, after)
    ensures Core(after)
  {
    if appended {
      WriteKeepsCore(l, e, w);
      CoreIgnoresSides(LedgerModel.Write(l, e, w), after);
    } else {
      CoreIgnoresSides(l, after);
    }
  }

  // Reversals.

  function ReturnEntry(l: Ledger, t: Transaction, user: string, restored: int): Entry {
    Entry(user, restored, WalletOf(l, user).balance + restored, IapRefundReversed, Some(ReturnKey(user, t.id)))
  }

  ghost predicate ReversalKept(l: Ledger, t: Transaction, user: string, record: Document, restored: int) {
    HandleReversal(l, t).0
    == LedgerModel.Write(l, ReturnEntry(l, t, user, restored), Posted(WalletOf(l, user), restored, IapRefundReversed))
       .(claims := l.claims[RecordSlot(t.id) := record.(reversed := record.reversed + restored)])
  }

  /** A reversal either changes nothing or gives back what is left of a record. */
  lemma ReversalSplits(l: Ledger, t: Transaction)
    requires HandleReversal(l, t).0 != l
    ensures t.token.Some? && RecordSlot(t.id) in l.claims
    ensures var record := l.claims[RecordSlot(t.id)];
            && record.user == t.token.value && record.product == t.product && record.environment == t.environment
            && record.recovered - record.reversed > 0
            && ReversalKept(l, t, t.token.value, record, record.recovered - record.reversed)
  {
    var user := t.token.value;
    var remaining := (record: Document) => Remaining(t, user, record);
    assert HandleReversal(l, t).0
        == ReverseRefund(l, user, Slot(t.id), RecordSlot(t.id), ReturnKey(user, t.id), remaining).0;
  }

  lemma ReversalKeepsAt(l: Ledger, t: Transaction, id: string)
    requires SoundAt(l, id)
    ensures SoundAt(HandleReversal(l, t).0, id)
  {
    var after := HandleReversal(l, t).0;
    if after != l {
      ReversalSplits(l, t);
      var record := l.claims[RecordSlot(t.id)];
      var restored := record.recovered - record.reversed;
      IapNetAppend(l.entries, ReturnEntry(l, t, t.token.value, restored), id);
      if id == t.id {
        ReversalEnters(l, after, t, record, restored);
      } else {
        SameForKeeps(l, after, id);
      }
    }
  }

  lemma ReversalEnters(l: Ledger, after: Ledger, t: Transaction, record: Document, restored: int)
    requires SoundAt(l, t.id) && RecordSlot(t.id) in l.claims && record == l.claims[RecordSlot(t.id)]
    requires t.token == Some(record.user) && restored == record.recovered - record.reversed > 0
    requires ReversalKept(l, t, record.user, record, restored) && after == HandleReversal(l, t).0
    ensures SoundAt(after, t.id)
  {
    IapNetAppend(l.entries, ReturnEntry(l, t, record.user, restored), t.id);
    forall u | ReturnKey(u, t.id) in after.applied ensures u == record.user {
      assert ReturnKey(u, t.id) in l.applied || u == record.user;
    }
    forall u | BackKey(u, t.id) in after.applied ensures u == record.user {
      assert BackKey(u, t.id) in l.applied;
    }
    forall u | BuyKey(u, t.id) in after.applied ensures after.claims[Slot(t.id)].user == u {
      assert BuyKey(u, t.id) in l.applied;
    }
  }

  /** A reversal that changes something appends one entry. */
  lemma ReversalAppends(l: Ledger, t: Transaction) returns (e: Entry, w: Wallet)
    requires SoundAt(l, t.id) && HandleReversal(l, t).0 != l
    requires t.token.Some? ==> WalletOf(l, t.token.value).balance >= 0
    ensures Appendable(l, e, w) && AsWritten(l, e, w, true, HandleReversal(l, t).0)
  {
    ReversalSplits(l, t);
    var record := l.claims[RecordSlot(t.id)];
    var restored := record.recovered - record.reversed;
    e, w := ReturnEntry(l, t, record.user, restored), Posted(WalletOf(l, record.user), restored, IapRefundReversed);
    assert ReturnKey(record.user, t.id) !in l.applied;
  }

  lemma ReversalKeepsCore(l: Ledger, t: Transaction)
    requires Core(l) && SoundAt(l, t.id)
    ensures Core(HandleReversal(l, t).0)
  {
    if HandleReversal(l, t).0 != l {
      if t.token.Some? {
        assert WalletOf(l, t.token.value).balance >= 0;
      }
      var e, w := ReversalAppends(l, t);
      KeepsCoreWith(l, e, w, true, HandleReversal(l, t).0);
    }
  }

  // What follows for one transaction, whatever happened to it.

  /** One Apple transaction credits one user at most, and what it brings that
      user in all, after any refunds and reversals, lies between nothing and
      the amount of the purchase. */
  lemma NetIsBounded(l: Ledger, id: string)
    requires IapSound(l)
    ensures forall u, v :: BuyKey(u, id) in l.applied && BuyKey(v, id) in l.applied ==> u == v
    ensures Slot(id) in l.claims ==> 0 <= IapNet(l.entries, id) <= l.claims[Slot(id)].amount
    ensures Slot(id) !in l.claims ==> IapNet(l.entries, id) == 0
  {
    assert SoundAt(l, id);
  }

  /** A reversal that comes before its refund is refused without a trace, and
      when it comes again after the refund, what was taken is given back in full. */
  lemma EarlyReversalLosesNothing(l: Ledger, refund: Transaction, reversal: Transaction)
    requires SoundAt(l, refund.id)
    requires Slot(refund.id) in l.claims && RecordSlot(refund.id) !in l.claims
    requires RefundTarget(refund).Some? && WalletOf(l, RefundTarget(refund).value).balance >= 0
    requires Plan(refund, RefundTarget(refund).value, l.claims[Slot(refund.id)]).Success?
    requires reversal.id == refund.id && reversal.token == RefundTarget(refund)
    requires reversal.product == refund.product && reversal.environment == refund.environment
    ensures HandleReversal(l, reversal) == (l, Failure(RefundNotYetProcessed))
    ensures var user := RefundTarget(refund).value;
            var end := HandleReversal(HandleRefund(l, refund).0, reversal).0;
            && WalletOf(end, user).balance == WalletOf(l, user).balance
            && IapNet(end.entries, refund.id) == IapNet(l.entries, refund.id) == l.claims[Slot(refund.id)].amount
  {
    var user := RefundTarget(refund).value;
    var middle := HandleRefund(l, refund).0;
    RefundKeepsAt(l, refund, refund.id);
    ReversalKeepsAt(middle, reversal, refund.id);
    RefundTakes(l, refund);
    ReversalGivesBack(middle, reversal);
  }

  /** The share that a REFUND names can be priced. */
  predicate Priceable(t: Transaction) {
    t.revocation.Full? || (t.revocation.Prorated? && t.percentage.Some? && 0 < t.percentage.value <= MILLIUNITS)
  }

  /** The REFUND agrees with the purchase: same account, product and environment. */
  predicate Matches(t: Transaction, claim: Document) {
    t.token == Some(claim.user) && t.product == claim.product && t.environment == claim.environment
  }

  /** When a REFUND is acted on, when it is skipped and when it is an error. */
  lemma RefundAnswers(l: Ledger, t: Transaction)
    requires SoundAt(l, t.id)
    ensures var (m, r) := HandleRefund(l, t);
            var meant := t.token.Some? && (t.revocation.Full? || (t.revocation.Prorated? && t.percentage.Some?));
            && (r == Success(None) <==> !meant || Slot(t.id) !in l.claims)
            && (r.Success? && r.value.Some? <==>
                  Slot(t.id) in l.claims && Matches(t, l.claims[Slot(t.id)]) && Priceable(t))
            && (r == Failure(RefundMismatch) <==>
                  meant && Slot(t.id) in l.claims && !Matches(t, l.claims[Slot(t.id)]))
            && (r == Failure(InvalidTransaction) <==>
                  meant && Slot(t.id) in l.claims && Matches(t, l.claims[Slot(t.id)]) && !Priceable(t))
            && (r.Failure? || r.value.None? ==> m == l)
  {
    if RefundTarget(t).Some? {
      var user := RefundTarget(t).value;
      var document := Document("", t.product, t.environment, 0, 0, 0, 0, 0);
      var plan := (claim: Document) => Plan(t, user, claim);
      var done := IapModel.Refund(l, user, Slot(t.id), RecordSlot(t.id), document, BackKey(user, t.id), plan);
      assert HandleRefund(l, t).1 == Answered(done.1);
      assert HandleRefund(l, t).0 == if done.1 == Failure(PurchaseClaimMissing) then l else done.0;
    }
  }

  /** What the handler makes of the answer of the shard store. */
  function Answered(r: Result<RefundResult, ShardError>): Result<Option<RefundResult>, ShardError> {
    match r
    case Failure(PurchaseClaimMissing) => Success(None)
    case Failure(e) => Failure(e)
    case Success(done) => Success(Some(done))
  }

  /** A first valid refund takes what is there, up to what was requested. */
  lemma RefundTakes(l: Ledger, t: Transaction)
    requires Slot(t.id) in l.claims && RecordSlot(t.id) !in l.claims && RefundTarget(t).Some?
    requires Plan(t, RefundTarget(t).value, l.claims[Slot(t.id)]).Success?
    requires WalletOf(l, RefundTarget(t).value).balance >= 0
    ensures var user := RefundTarget(t).value;
            var planned := Plan(t, user, l.claims[Slot(t.id)]).value;
            var taken := Taken(l, user, planned.requested);
            var after := HandleRefund(l, t).0;
            && WalletOf(after, user).balance == WalletOf(l, user).balance - Max(taken, 0) >= 0
            && RecordSlot(t.id) in after.claims
            && after.claims[RecordSlot(t.id)]
               == Document(user, t.product, t.environment, 0, planned.original, planned.requested, taken, 0)
            && Slot(t.id) in after.claims && after.claims[Slot(t.id)] == l.claims[Slot(t.id)]
  {
    var user := RefundTarget(t).value;
    var document := Document("", t.product, t.environment, 0, 0, 0, 0, 0);
    var plan := (claim: Document) => Plan(t, user, claim);
    assert HandleRefund(l, t).0
        == IapModel.Refund(l, user, Slot(t.id), RecordSlot(t.id), document, BackKey(user, t.id), plan).0;
    var claim := l.claims[Slot(t.id)];
    RequestedIsRoundedShare(claim.amount, t.revocation, t.percentage);
  }

  lemma ReversalGivesBack(l: Ledger, t: Transaction)
    requires t.token.Some? && RecordSlot(t.id) in l.claims
    requires Remaining(t, t.token.value, l.claims[RecordSlot(t.id)]).Success?
    ensures var record := l.claims[RecordSlot(t.id)];
            var restored := Max(0, record.recovered - record.reversed);
            var after := HandleReversal(l, t).0;
            && WalletOf(after, t.token.value).balance == WalletOf(l, t.token.value).balance + restored
            && RecordSlot(t.id) in after.claims
            && after.claims[RecordSlot(t.id)] == record.(reversed := record.reversed + restored)
            && (Slot(t.id) in l.claims ==>
                  Slot(t.id) in after.claims && after.claims[Slot(t.id)] == l.claims[Slot(t.id)])
  {
    var user := t.token.value;
    var remaining := (record: Document) => Remaining(t, user, record);
    assert HandleReversal(l, t).0
        == ReverseRefund(l, user, Slot(t.id), RecordSlot(t.id), ReturnKey(user, t.id), remaining).0;
  }
}
