/** The services in front of the shard store: app/shards/service.py, the credit of
    app/iap/service.py and the notifications of app/iap/refunds.py, each proved
    against the operation that the runs of LedgerRuns are made of. */
module ShardServices {
  import opened Wrappers
  import opened LedgerModel
  import Runs = LedgerRuns
  import Iap = IapModel
  import Guests = GuestWallets
  import Stores = ShardStore

  class ShardLedgerService {
    const store: Stores.InMemoryShardStore

    constructor (store: Stores.InMemoryShardStore)
      ensures this.store == store
    {
      this.store := store;
    }

    /** Give shards: the amount is checked, the key is scoped to the user, a period
        limits how often, and a claim makes the event exclusive. */
    method Credit(user: string, amount: int, reason: ShardReason, event: Option<Event>, gate: Option<Runs.Gate>,
                  claim: Option<ExclusiveClaim>) returns (r: Result<Mutation, ShardError>)
      modifies store
      ensures !UsableAmount(amount) ==> r == Failure(InvalidShardAmount) && store.View() == old(store.View())
      ensures UsableAmount(amount) ==>
                (store.View(), r) == Apply(old(store.View()), user, amount, reason, Runs.KeyFor(user, reason, event),
                                           Runs.QuotaFor(user, reason, gate), claim)
    {
      if amount <= 0 || amount > MAX_DELTA {
        return Failure(InvalidShardAmount);
      }
      var quota := if gate.Some?
                   then Some(PeriodQuota(Runs.QuotaKey(user, reason, gate.value.period), gate.value.limit))
                   else None;
      var key := if event.Some? then Some(Key(user, reason, event.value)) else None;
      r := store.Apply(user, amount, reason, key, quota, claim);
    }

    method Debit(user: string, amount: int, reason: ShardReason, event: Option<Event>)
      returns (r: Result<Mutation, ShardError>)
      modifies store
      ensures (store.View(), r) == Runs.Debited(old(store.View()), user, amount, reason, event)
    {
      if amount <= 0 || amount > MAX_DELTA {
        return Failure(InvalidShardAmount);
      }
      var key := if event.Some? then Some(Key(user, reason, event.value)) else None;
      r := store.Apply(user, -amount, reason, key, None, None);
    }

    method ClaimGuestWallet(guest: string, owner: string) returns (r: Result<int, ShardError>)
      modifies store
      ensures (store.View(), r) == Guests.HandOver(old(store.View()), guest, owner)
    {
      r := store.ClaimGuestWallet(guest, owner);
    }
  }

  /** What is known of a user id: whether it is a guest, and who claimed it. */
  datatype Account = Account(guest: bool, claimedBy: Option<string>)

  /** The account token names the signed-in user, or a guest that user has claimed. */
  predicate MayBeCredited(users: map<string, Account>, token: Option<string>, user: string) {
    token.Some? &&
    (token.value == user ||
     (token.value in users && users[token.value].guest && users[token.value].claimedBy == Some(user)))
  }

  /** Two ways only: one's own id, or that of a guest whose wallet went to this user. */
  lemma OnlyOwnersAreCredited(users: map<string, Account>, token: string, user: string)
    ensures !MayBeCredited(users, None, user)
    ensures MayBeCredited(users, Some(token), user) <==>
              token == user || (token in users && users[token] == Account(true, Some(user)))
  {
  }

  class IapService {
    const shards: ShardLedgerService

    constructor (shards: ShardLedgerService)
      ensures this.shards == shards
    {
      this.shards := shards;
    }

    /** Pay out a verified transaction of the user, or of a guest the user has
        claimed, under its global claim. */
    method Credit(users: map<string, Account>, user: string, t: Iap.Transaction, amount: int)
      returns (r: Result<Mutation, ShardError>)
      modifies shards.store
      ensures MayBeCredited(users, t.token, user) ==>
                (shards.store.View(), r) == Iap.Purchase(old(shards.store.View()), user, t, amount)
      ensures !MayBeCredited(users, t.token, user) ==>
                r == Failure(AccountTokenMismatch) && shards.store.View() == old(shards.store.View())
    {
      if t.token.None? {
        return Failure(AccountTokenMismatch);
      }
      var token := t.token.value;
      if token != user && (token !in users || !users[token].guest || users[token].claimedBy != Some(user)) {
        return Failure(AccountTokenMismatch);
      }
      var claim := ExclusiveClaim(DocKey(Transactions, t.id),
                                  Document("", t.product, t.environment, amount, 0, 0, 0, 0));
      r := shards.Credit(user, amount, IapPurchase, Some(Named(t.id)), None, Some(claim));
    }

    /** A REFUND notification: what cannot be acted on is skipped without an error. */
    method Handle(t: Iap.Transaction) returns (r: Result<Option<Iap.RefundResult>, ShardError>)
      modifies shards.store
      ensures (shards.store.View(), r) == Iap.HandleRefund(old(shards.store.View()), t)
    {
      if t.revocation.FamilyRevoke? || (t.revocation.Prorated? && t.percentage.None?) {
        return Success(None);
      }
      if !t.revocation.Full? && !t.revocation.Prorated? {
        return Success(None);
      }
      if t.token.None? {
        return Success(None);
      }
      var user := t.token.value;
      var plan := (claim: Document) => Iap.Plan(t, user, claim);
      var done := shards.store.Refund(user, Iap.Slot(t.id), Iap.RecordSlot(t.id),
                               Document("", t.product, t.environment, 0, 0, 0, 0, 0), Iap.BackKey(user, t.id), plan);
      if done.Failure? {
        return if done.error.PurchaseClaimMissing? then Success(None) else Failure(done.error);
      }
      r := Success(Some(done.value));
    }

    /** A REFUND_REVERSED notification: an unknown purchase is skipped, a refund
        that has not been seen yet is an error. */
    method HandleReversal(t: Iap.Transaction) returns (r: Result<Option<Iap.ReversalResult>, ShardError>)
      modifies shards.store
      ensures (shards.store.View(), r) == Iap.HandleReversal(old(shards.store.View()), t)
    {
      if t.token.None? {
        return Success(None);
      }
      var user := t.token.value;
      var remaining := (record: Document) => Iap.Remaining(t, user, record);
      var done := shards.store.ReverseRefund(user, Iap.Slot(t.id), Iap.RecordSlot(t.id), Iap.ReturnKey(user, t.id),
                                             remaining);
      if done.Failure? {
        return if done.error.RefundRecordMissing? then Success(None) else Failure(done.error);
      }
      r := Success(Some(done.value));
    }
  }
}
