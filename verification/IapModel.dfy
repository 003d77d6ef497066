/** Apple purchases, refunds and refund reversals over the ledger
    (app/iap/service.py, app/iap/refunds.py and the refund operations of
    app/shards/store.py). Signatures are verified before any of this runs. */
module IapModel {
  import opened Wrappers
  import opened LedgerModel

  datatype Revocation = Full | Prorated | FamilyRevoke | UnknownKind | NoKind

  /** A verified transaction. `token` is the account token as a user id. */
  datatype Transaction = Transaction(
    id: string, product: string, environment: string, token: Option<string>,
    revocation: Revocation, percentage: Option<int>)

  /** 100% in Apple's unit. */
  const MILLIUNITS := 100_000

  /** How much of `original` to take back. */
  function RequestedAmount(original: int, revocation: Revocation, percentage: Option<int>): Result<int, ShardError> {
    if revocation.Full? then Success(original)
    else if percentage.None? || percentage.value <= 0 || percentage.value > MILLIUNITS then
      Failure(InvalidTransaction)
    else Success(Min(original, Max(1, original * percentage.value / MILLIUNITS)))
  }

  function Slot(id: string): DocKey { DocKey(Transactions, id) }
  function RecordSlot(id: string): DocKey { DocKey(Refunds, id) }

  function BuyKey(user: string, id: string): Key { Key(user, IapPurchase, Named(id)) }
  function BackKey(user: string, id: string): Key { Key(user, IapRefund, Named(id)) }
  function ReturnKey(user: string, id: string): Key { Key(user, IapRefundReversed, Named(id)) }

  /** Pay out a purchase, under the globally exclusive claim of its transaction. */
  function Purchase(l: Ledger, user: string, t: Transaction, amount: int)
    : (Ledger, Result<Mutation, ShardError>)
  {
    if !UsableAmount(amount) then (l, Failure(InvalidShardAmount))
    else
      var document := Document("", t.product, t.environment, amount, 0, 0, 0, 0);
      Apply(l, user, amount, IapPurchase, Some(BuyKey(user, t.id)), None,
            Some(ExclusiveClaim(Slot(t.id), document)))
  }

  datatype RefundPlan = RefundPlan(requested: int, original: int)

  /** `requested` was asked for, `recovered` was really taken. */
  datatype RefundResult = RefundResult(wallet: Wallet, requested: int, recovered: int, applied: bool)

  /** The refund operation of the shard store. `plan` judges the purchase claim. */
  function Refund(l: Ledger, user: string, purchase: DocKey, record: DocKey, document: Document, key: Key,
                  plan: Document -> Result<RefundPlan, ShardError>)
    : (Ledger, Result<RefundResult, ShardError>)
  {
    if purchase !in l.claims then (l, Failure(PurchaseClaimMissing))
    else
      match plan(l.claims[purchase])
      case Failure(e) => (l, Failure(e))
      case Success(planned) =>
        if record in l.claims then
          var existing := l.claims[record];
          (l, Success(RefundResult(WalletOf(l, user), existing.requested, existing.recovered, false)))
        else
          var current := WalletOf(l, user);
          var recovered := Min(current.balance, planned.requested);
          var taken := if recovered > 0
                       then Write(l, Entry(user, -recovered, current.balance - recovered, IapRefund, Some(key)),
                                  Posted(current, -recovered, IapRefund))
                       else l;
          var written := document.(user := user, original := planned.original,
                                   requested := planned.requested, recovered := recovered);
          (taken.(claims := l.claims[record := written]),
           Success(RefundResult(WalletOf(taken, user), planned.requested, recovered, true)))
  }

  datatype ReversalResult = ReversalResult(wallet: Wallet, restored: int, applied: bool)

  /** The reversal operation of the shard store. */
  function ReverseRefund(l: Ledger, user: string, purchase: DocKey, record: DocKey, key: Key,
                         remaining: Document -> Result<int, ShardError>)
    : (Ledger, Result<ReversalResult, ShardError>)
  {
    if record !in l.claims then
      (l, Failure(if purchase !in l.claims then RefundRecordMissing else RefundNotYetProcessed))
    else
      match remaining(l.claims[record])
      case Failure(e) => (l, Failure(e))
      case Success(restorable) =>
        var current := WalletOf(l, user);
        if restorable <= 0 then (l, Success(ReversalResult(current, 0, false)))
        else
          var wallet := Posted(current, restorable, IapRefundReversed);
          var written := Write(l, Entry(user, restorable, wallet.balance, IapRefundReversed, Some(key)), wallet);
          var existing := l.claims[record];
          (written.(claims := l.claims[record := existing.(reversed := existing.reversed + restorable)]),
           Success(ReversalResult(wallet, restorable, true)))
  }

  /** `_plan`: compare the purchase claim with the notification, then price it. */
  function Plan(t: Transaction, user: string, claim: Document): Result<RefundPlan, ShardError> {
    if claim.amount <= 0 || claim.product != t.product || claim.environment != t.environment || claim.user != user then
      Failure(RefundMismatch)
    else
      match RequestedAmount(claim.amount, t.revocation, t.percentage)
      case Failure(e) => Failure(e)
      case Success(requested) => Success(RefundPlan(requested, claim.amount))
  }

  /** `_remaining`: compare the refund record with the notification. */
  function Remaining(t: Transaction, user: string, record: Document): Result<int, ShardError> {
    if record.product != t.product || record.environment != t.environment || record.user != user then
      Failure(RefundMismatch)
    else Success(Max(0, record.recovered - record.reversed))
  }

  /** Some(user) when a REFUND notification is one to act on. */
  function RefundTarget(t: Transaction): Option<string> {
    if t.revocation.Full? || (t.revocation.Prorated? && t.percentage.Some?) then t.token else None
  }

  /** A verified REFUND notification. What cannot be acted on is answered without
      an exception and changes nothing. */
  function HandleRefund(l: Ledger, t: Transaction): (Ledger, Result<Option<RefundResult>, ShardError>) {
    match RefundTarget(t)
    case None => (l, Success(None))
    case Some(user) =>
      var document := Document("", t.product, t.environment, 0, 0, 0, 0, 0);
      var (after, r) := Refund(l, user, Slot(t.id), RecordSlot(t.id), document, BackKey(user, t.id),
                               claim => Plan(t, user, claim));
      match r
      case Failure(PurchaseClaimMissing) => (l, Success(None))
      case Failure(e) => (after, Failure(e))
      case Success(done) => (after, Success(Some(done)))
  }

  /** A verified REFUND_REVERSED notification. A refund that has not been seen yet
      is an error, so that the notification comes again. */
  function HandleReversal(l: Ledger, t: Transaction): (Ledger, Result<Option<ReversalResult>, ShardError>) {
    match t.token
    case None => (l, Success(None))
    case Some(user) =>
      var (after, r) := ReverseRefund(l, user, Slot(t.id), RecordSlot(t.id), ReturnKey(user, t.id),
                                      record => Remaining(t, user, record));
      match r
      case Failure(RefundRecordMissing) => (l, Success(None))
      case Failure(e) => (after, Failure(e))
      case Success(done) => (after, Success(Some(done)))
  }

  /** The prorated amount is the floor of the exact share, except that a positive
      share is never rounded down to nothing; it never exceeds the purchase. */
  lemma RequestedIsRoundedShare(original: int, revocation: Revocation, percentage: Option<int>)
    requires original > 0 && RequestedAmount(original, revocation, percentage).Success?
    ensures var r := RequestedAmount(original, revocation, percentage).value;
            && 1 <= r <= original
            && (revocation.Full? ==> r == original)
            && (!revocation.Full? ==>
                  && (r == 1 || r * MILLIUNITS <= original * percentage.value)
                  && original * percentage.value < (r + 1) * MILLIUNITS
                  && (r == original <== percentage.value == MILLIUNITS))
  {
    if !revocation.Full? {
      var p := percentage.value;
      var share := original * p;
      assert share <= original * MILLIUNITS by {
        ShareIsBounded(original, p);
      }
      assert share / MILLIUNITS <= original;
    }
  }

  lemma ShareIsBounded(original: int, p: int)
    requires original > 0 && 0 < p <= MILLIUNITS
    ensures 0 < original * p <= original * MILLIUNITS
  {
  }

  lemma ShareGrows(original: int, p: int, q: int)
    requires original > 0 && p <= q
    ensures original * p <= original * q
  {
    assert original * (q - p) >= 0;
  }

  lemma FloorGrows(a: int, b: int)
    requires a <= b
    ensures a / MILLIUNITS <= b / MILLIUNITS
  {
  }

  /** A larger percentage never takes back less. */
  lemma RequestedIsMonotone(original: int, p: int, q: int)
    requires original > 0 && 0 < p <= q <= MILLIUNITS
    ensures RequestedAmount(original, Prorated, Some(p)).value <= RequestedAmount(original, Prorated, Some(q)).value
  {
    ShareGrows(original, p, q);
    FloorGrows(original * p, original * q);
  }
}
