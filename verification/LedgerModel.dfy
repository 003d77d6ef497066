/** Value model of the shard ledger: wallets, append-only entries, idempotency
    keys, quotas and globally exclusive claims (app/shards/models.py and the
    in-memory store of app/shards/store.py). */
module LedgerModel {
  import opened Wrappers

  /** The largest amount the service lets one call move. */
  const MAX_DELTA := 100_000

  datatype ShardReason =
    | DailyAttendance | RewardedAd | IapPurchase | AiSticker | AiMirror
    | MirrorPurchase | MirrorSale | StickerPurchase | StickerSale
    | ModerationCompensation | MirrorPublishFee | StickerPublishFee
    | Refund | IapRefund | IapRefundReversed | MirrorCapacityPurchase
    | CatalogTemplatePurchase | GuestClaim | AdminAdjustment

  /** The external event a movement stands for: an identifier handed in by the
      caller, the refund of a generation, or the marketplace ownership derived
      from (buyer, listing). */
  datatype Event = Named(id: string) | RefundOf(generation: string) | Bought(buyer: string, listing: string)

  /** The idempotency hash. SHA-256 is taken to be collision free, so equal
      hashes mean equal (user, reason, event); module Canonical proves the same
      of the text that is hashed. */
  datatype Key = Key(user: string, reason: ShardReason, event: Event)

  datatype Wallet = Wallet(balance: int, earned: int, spent: int, refunded: int, reversed: int)

  const EMPTY_WALLET := Wallet(0, 0, 0, 0, 0)

  datatype Entry = Entry(user: string, delta: int, balanceAfter: int, reason: ShardReason, key: Option<Key>)

  datatype Collection = Transactions | Refunds
  datatype DocKey = DocKey(collection: Collection, id: string)

  /** A claim document. A field the source would read from a missing key is 0. */
  datatype Document = Document(
    user: string, product: string, environment: string, amount: int,
    original: int, requested: int, recovered: int, reversed: int)

  datatype PeriodQuota = PeriodQuota(key: Key, limit: int)
  datatype ExclusiveClaim = ExclusiveClaim(slot: DocKey, document: Document)

  datatype Ledger = Ledger(
    wallets: map<string, Wallet>,
    entries: seq<Entry>,
    applied: map<Key, Entry>,
    quotas: map<Key, int>,
    claims: map<DocKey, Document>)

  const EMPTY_LEDGER := Ledger(map[], [], map[], map[], map[])

  datatype ShardError =
    | InsufficientShards | InvalidShardAmount | ClaimOwnedByAnother | PurchaseClaimMissing
    | RefundRecordMissing | RefundNotYetProcessed | WalletAlreadyChanged | GuestClaimBroken
    | QuotaExceeded | RefundMismatch | InvalidTransaction | AccountTokenMismatch

  /** What one call did: the wallet to show, the entry it stands for, and
      whether this very call wrote it. */
  datatype Mutation = Mutation(wallet: Wallet, entry: Entry, applied: bool)

  function Max(a: int, b: int): int { if a < b then b else a }

  function Min(a: int, b: int): int { if a < b then a else b }

  function WalletOf(l: Ledger, user: string): Wallet {
    if user in l.wallets then l.wallets[user] else EMPTY_WALLET
  }

  function Used(l: Ledger, quota: Key): int {
    if quota in l.quotas then l.quotas[quota] else 0
  }

  /** An ordinary movement: refund totals are carried over untouched. */
  function Moved(w: Wallet, delta: int): Wallet {
    w.(balance := w.balance + delta,
       earned := w.earned + Max(delta, 0),
       spent := w.spent + Max(-delta, 0))
  }

  /** The wallet after one ledger entry, by the reason the entry carries. */
  function Posted(w: Wallet, delta: int, reason: ShardReason): Wallet {
    match reason
    case IapRefund => w.(balance := w.balance + delta, refunded := w.refunded - delta)
    case IapRefundReversed => w.(balance := w.balance + delta, reversed := w.reversed + delta)
    case _ => Moved(w, delta)
  }

  /** Append an entry, replace its owner's wallet and register its key. */
  function Write(l: Ledger, e: Entry, w: Wallet): Ledger {
    l.(wallets := l.wallets[e.user := w],
       entries := l.entries + [e],
       applied := if e.key.Some? then l.applied[e.key.value := e] else l.applied)
  }

  /** The general movement of `InMemoryShardStore.apply`: claim owner, then
      duplicate, then quota, then balance; only then everything is written. */
  function Apply(l: Ledger, user: string, delta: int, reason: ShardReason, key: Option<Key>,
                 quota: Option<PeriodQuota>, claim: Option<ExclusiveClaim>)
    : (Ledger, Result<Mutation, ShardError>)
  {
    if claim.Some? && claim.value.slot in l.claims && l.claims[claim.value.slot].user != user then
      (l, Failure(ClaimOwnedByAnother))
    else if key.Some? && key.value in l.applied then
      var existing := l.applied[key.value];
      (l, Success(Mutation(WalletOf(l, existing.user), existing, false)))
    else if quota.Some? && Used(l, quota.value.key) >= quota.value.limit then
      (l, Failure(QuotaExceeded))
    else
      var wallet := Moved(WalletOf(l, user), delta);
      if wallet.balance < 0 then
        (l, Failure(InsufficientShards))
      else
        var entry := Entry(user, delta, wallet.balance, reason, key);
        var written := Write(l, entry, wallet);
        var counted := if quota.Some?
                       then written.(quotas := l.quotas[quota.value.key := Used(l, quota.value.key) + 1])
                       else written;
        var claimed := if claim.Some?
                       then counted.(claims := l.claims[claim.value.slot := claim.value.document.(user := user)])
                       else counted;
        (claimed, Success(Mutation(wallet, entry, true)))
  }

  /** An `Apply` with neither quota nor claim. */
  function ApplyKeyed(l: Ledger, user: string, delta: int, reason: ShardReason, event: Event)
    : (Ledger, Result<Mutation, ShardError>)
  {
    Apply(l, user, delta, reason, Some(Key(user, reason, event)), None, None)
  }

  predicate UsableAmount(amount: int) { 0 < amount <= MAX_DELTA }

  predicate UsableDelta(delta: int) { delta != 0 && -MAX_DELTA <= delta <= MAX_DELTA }
}
