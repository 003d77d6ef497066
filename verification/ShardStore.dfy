/** `InMemoryShardStore` and the per-attempt context of a caller-owned
    transaction, in the imperative form of app/shards/store.py. Every method is
    proved against the value operations the theorems are about. */
module ShardStore {
  import opened Wrappers
  import opened LedgerModel
  import opened Transactions
  import opened StagedMoves
  import Guests = GuestWallets
  import Iap = IapModel

  /** The bookkeeping of one attempt: which wallets it has claimed. */
  class ShardTransactionContext {
    var changedWallets: set<string>
    const transaction: InMemoryTransaction<Ledger>

    constructor (transaction: InMemoryTransaction<Ledger>)
      ensures changedWallets == {} && this.transaction == transaction
    {
      changedWallets := {};
      this.transaction := transaction;
    }

    /** Claim a wallet for this attempt, or answer that it is taken. */
    method Claim(user: string) returns (ok: bool)
      modifies this
      ensures ok == (user !in old(changedWallets))
      ensures changedWallets == old(changedWallets) + {user}
    {
      ok := user !in changedWallets;
      changedWallets := changedWallets + {user};
    }
  }

  /** Writes that never raise all take effect. */
  lemma {:induction false} WritesCommit(l: Ledger, staged: seq<(Entry, Wallet)>, undos: seq<Ledger -> Ledger>)
    ensures Transactions.Committed(l, Writes(staged), undos) == (WriteAll(l, staged), true)
    decreases |staged|
  {
    if staged != [] {
      var e, w := staged[0].0, staged[0].1;
      var effect := WriteOf(e, w)(l);
      assert Writes(staged)[0] == WriteOf(e, w) && Writes(staged)[1..] == Writes(staged[1..]);
      WritesCommit(LedgerModel.Write(l, e, w), staged[1..], undos + [effect.undo]);
    }
  }

  lemma TwoWritten(l: Ledger, e: Entry, w: Wallet, f: Entry, v: Wallet)
    ensures WriteAll(l, [(e, w), (f, v)]) == LedgerModel.Write(LedgerModel.Write(l, e, w), f, v)
  {
    var writes := [(e, w), (f, v)];
    var one := LedgerModel.Write(l, e, w);
    assert WriteAll(l, writes) == WriteAll(one, writes[1..]);
    assert writes[1..] == [(f, v)] && [(f, v)][1..] == [];
    assert WriteAll(one, [(f, v)]) == WriteAll(LedgerModel.Write(one, f, v), [(f, v)][1..]);
  }

  lemma TwoStaged(e: Entry, w: Wallet, f: Entry, v: Wallet)
    ensures Writes([(e, w), (f, v)]) == [WriteOf(e, w)] + [WriteOf(f, v)]
  {
    var staged := [(e, w), (f, v)];
    assert Writes(staged) == [WriteOf(e, w)] + Writes(staged[1..]);
    assert staged[1..] == [(f, v)] && [(f, v)][1..] == [];
    assert Writes([(f, v)]) == [WriteOf(f, v)] + Writes([(f, v)][1..]);
  }

  lemma StageIs(l: Ledger, changed: set<string>, m: Move, w: Wallet)
    requires m.Key() !in l.applied && m.user !in changed && w == Moved(WalletOf(l, m.user), m.delta)
    ensures Stage(l, changed, m)
         == if w.balance < 0 then Failure(InsufficientShards)
            else Success(Fresh(Entry(m.user, m.delta, w.balance, m.reason, Some(m.Key())), w))
  {
  }

  /** What a movement that passed every check leaves behind. */
  function Recorded(l: Ledger, user: string, delta: int, reason: ShardReason, key: Option<Key>,
                    quota: Option<PeriodQuota>, claim: Option<ExclusiveClaim>): Ledger
  {
    var wallet := Moved(WalletOf(l, user), delta);
    LedgerModel.Write(l, Entry(user, delta, wallet.balance, reason, key), wallet)
      .(quotas := if quota.Some? then l.quotas[quota.value.key := Used(l, quota.value.key) + 1] else l.quotas,
        claims := if claim.Some? then l.claims[claim.value.slot := claim.value.document.(user := user)] else l.claims)
  }

  /** Nothing stands in the way of a movement. */
  predicate Clear(l: Ledger, user: string, delta: int, key: Option<Key>,
                  quota: Option<PeriodQuota>, claim: Option<ExclusiveClaim>)
  {
    && (claim.Some? && claim.value.slot in l.claims ==> l.claims[claim.value.slot].user == user)
    && (key.Some? ==> key.value !in l.applied)
    && (quota.Some? ==> Used(l, quota.value.key) < quota.value.limit)
    && WalletOf(l, user).balance + delta >= 0
  }

  lemma RecordedIsApplied(l: Ledger, user: string, delta: int, reason: ShardReason, key: Option<Key>,
                          quota: Option<PeriodQuota>, claim: Option<ExclusiveClaim>)
    requires Clear(l, user, delta, key, quota, claim)
    ensures var wallet := Moved(WalletOf(l, user), delta);
            LedgerModel.Apply(l, user, delta, reason, key, quota, claim)
            == (Recorded(l, user, delta, reason, key, quota, claim),
                Success(Mutation(wallet, Entry(user, delta, wallet.balance, reason, key), true)))
  {
  }

  class InMemoryShardStore {
    var wallets: map<string, Wallet>
    var entries: seq<Entry>
    var applied: map<Key, Entry>
    var quotas: map<Key, int>
    var claims: map<DocKey, Document>

    constructor ()
      ensures View() == EMPTY_LEDGER
    {
      wallets, entries, applied, quotas, claims := map[], [], map[], map[], map[];
    }

    /** The store as one value. */
    function View(): Ledger
      reads this
    {
      Ledger(wallets, entries, applied, quotas, claims)
    }

    method Load(l: Ledger)
      modifies this
      ensures View() == l
    {
      wallets, entries, applied, quotas, claims := l.wallets, l.entries, l.applied, l.quotas, l.claims;
    }

    method ReadWallet(user: string) returns (w: Wallet)
      ensures w == WalletOf(View(), user)
    {
      w := if user in wallets then wallets[user] else EMPTY_WALLET;
    }

    method ReadQuota(quota: Key) returns (used: int)
      ensures used == Used(View(), quota)
    {
      used := if quota in quotas then quotas[quota] else 0;
    }

    /** One ledger line, its wallet and its key. */
    method Append(entry: Entry, wallet: Wallet)
      modifies this
      ensures View() == LedgerModel.Write(old(View()), entry, wallet)
    {
      wallets := wallets[entry.user := wallet];
      entries := entries + [entry];
      if entry.key.Some? {
        applied := applied[entry.key.value := entry];
      }
    }

    /** The checks of `apply` that end the call, in their order. */
    method Check(user: string, delta: int, reason: ShardReason, key: Option<Key>,
                 quota: Option<PeriodQuota>, claim: Option<ExclusiveClaim>)
      returns (stop: Option<Result<Mutation, ShardError>>)
      ensures stop.Some? ==>
                LedgerModel.Apply(View(), user, delta, reason, key, quota, claim) == (View(), stop.value)
      ensures stop.None? ==> Clear(View(), user, delta, key, quota, claim)
    {
      if claim.Some? && claim.value.slot in claims {
        if claims[claim.value.slot].user != user {
          return Some(Failure(ClaimOwnedByAnother));
        }
      }
      if key.Some? && key.value in applied {
        var existing := applied[key.value];
        var theirs := ReadWallet(existing.user);
        return Some(Success(Mutation(theirs, existing, false)));
      }
      if quota.Some? {
        var used := ReadQuota(quota.value.key);
        if used >= quota.value.limit {
          return Some(Failure(QuotaExceeded));
        }
      }
      var current := ReadWallet(user);
      if current.balance + delta < 0 {
        return Some(Failure(InsufficientShards));
      }
      return None;
    }

    method Apply(user: string, delta: int, reason: ShardReason, key: Option<Key>,
                 quota: Option<PeriodQuota>, claim: Option<ExclusiveClaim>)
      returns (r: Result<Mutation, ShardError>)
      modifies this
      ensures (View(), r) == LedgerModel.Apply(old(View()), user, delta, reason, key, quota, claim)
    {
      var stop := Check(user, delta, reason, key, quota, claim);
      if stop.Some? {
        return stop.value;
      }
      RecordedIsApplied(View(), user, delta, reason, key, quota, claim);
      r := Record(user, delta, reason, key, quota, claim);
    }

    /** The entry, the wallet, the key, the counter and the claim, all in one go. */
    method Record(user: string, delta: int, reason: ShardReason, key: Option<Key>,
                  quota: Option<PeriodQuota>, claim: Option<ExclusiveClaim>)
      returns (r: Result<Mutation, ShardError>)
      modifies this
      ensures View() == Recorded(old(View()), user, delta, reason, key, quota, claim)
      ensures var wallet := Moved(WalletOf(old(View()), user), delta);
              r == Success(Mutation(wallet, Entry(user, delta, wallet.balance, reason, key), true))
    {
      var current := ReadWallet(user);
      var entry := Entry(user, delta, current.balance + delta, reason, key);
      var wallet := Wallet(current.balance + delta, current.earned + Max(delta, 0), current.spent + Max(-delta, 0),
                           current.refunded, current.reversed);
      Append(entry, wallet);
      if quota.Some? {
        var used := ReadQuota(quota.value.key);
        quotas := quotas[quota.value.key := used + 1];
      }
      if claim.Some? {
        claims := claims[claim.value.slot := claim.value.document.(user := user)];
      }
      r := Success(Mutation(wallet, entry, true));
    }

    method Refund(user: string, purchase: DocKey, record: DocKey, document: Document, key: Key,
                  plan: Document -> Result<Iap.RefundPlan, ShardError>)
      returns (r: Result<Iap.RefundResult, ShardError>)
      modifies this
      ensures (View(), r) == Iap.Refund(old(View()), user, purchase, record, document, key, plan)
    {
      if purchase !in claims {
        return Failure(PurchaseClaimMissing);
      }
      var planned := plan(claims[purchase]);
      if planned.Failure? {
        return Failure(planned.error);
      }
      var amount := planned.value.requested;
      var current := ReadWallet(user);
      if record in claims {
        var existing := claims[record];
        return Success(Iap.RefundResult(current, existing.requested, existing.recovered, false));
      }
      var recovered := Min(current.balance, amount);
      if recovered > 0 {
        var entry := Entry(user, -recovered, current.balance - recovered, IapRefund, Some(key));
        Append(entry, Wallet(current.balance - recovered, current.earned, current.spent,
                             current.refunded + recovered, current.reversed));
      }
      claims := claims[record := document.(user := user, original := planned.value.original,
                                           requested := amount, recovered := recovered)];
      var after := ReadWallet(user);
      r := Success(Iap.RefundResult(after, amount, recovered, true));
    }

    method ReverseRefund(user: string, purchase: DocKey, record: DocKey, key: Key,
                         remaining: Document -> Result<int, ShardError>)
      returns (r: Result<Iap.ReversalResult, ShardError>)
      modifies this
      ensures (View(), r) == Iap.ReverseRefund(old(View()), user, purchase, record, key, remaining)
    {
      if record !in claims {
        if purchase !in claims {
          return Failure(RefundRecordMissing);
        }
        return Failure(RefundNotYetProcessed);
      }
      var existing := claims[record];
      var restorable := remaining(existing);
      if restorable.Failure? {
        return Failure(restorable.error);
      }
      var current := ReadWallet(user);
      if restorable.value <= 0 {
        return Success(Iap.ReversalResult(current, 0, false));
      }
      var entry := Entry(user, restorable.value, current.balance + restorable.value, IapRefundReversed, Some(key));
      var wallet := Wallet(entry.balanceAfter, current.earned, current.spent, current.refunded,
                           current.reversed + restorable.value);
      Append(entry, wallet);
      claims := claims[record := existing.(reversed := existing.reversed + restorable.value)];
      r := Success(Iap.ReversalResult(wallet, restorable.value, true));
    }

    /** The wallet a movement would leave, from the committed state. */
    method MovedWallet(m: Move) returns (wallet: Wallet)
      ensures wallet == Moved(WalletOf(View(), m.user), m.delta)
    {
      var current := ReadWallet(m.user);
      wallet := Wallet(current.balance + m.delta, current.earned + Max(m.delta, 0), current.spent + Max(-m.delta, 0),
                       current.refunded, current.reversed);
    }

    /** Adds one movement to the caller's transaction. The store itself does not
        change: reads see the committed state until the caller commits. */
    method ApplyInTransaction(context: ShardTransactionContext, m: Move) returns (r: Result<Staging, ShardError>)
      modifies context, context.transaction
      ensures r == Stage(View(), old(context.changedWallets), m)
      ensures r.Success? && r.value.Fresh? ==>
                && context.changedWallets == old(context.changedWallets) + {m.user}
                && context.transaction.writes
                   == old(context.transaction.writes) + [WriteOf(r.value.entry, r.value.wallet)]
      ensures !(r.Success? && r.value.Fresh?) ==> context.transaction.writes == old(context.transaction.writes)
      ensures r.Success? && r.value.Duplicate? ==> context.changedWallets == old(context.changedWallets)
    {
      if m.Key() in applied {
        return Success(Duplicate(applied[m.Key()]));
      }
      var free := context.Claim(m.user);
      if !free {
        return Failure(WalletAlreadyChanged);
      }
      var wallet := MovedWallet(m);
      StageIs(View(), old(context.changedWallets), m, wallet);
      if wallet.balance < 0 {
        return Failure(InsufficientShards);
      }
      var entry := Entry(m.user, m.delta, wallet.balance, m.reason, Some(m.Key()));
      context.transaction.Add(WriteOf(entry, wallet));
      r := Success(Fresh(entry, wallet));
    }

    /** The normal end of `with store.transaction()`. */
    method Commit(transaction: InMemoryTransaction<Ledger>) returns (ok: bool)
      modifies this, transaction
      ensures (View(), ok) == Transactions.Committed(old(View()), old(transaction.writes), [])
    {
      var end: Ledger;
      end, ok := transaction.Commit(View());
      Load(end);
    }

    method ClaimGuestWallet(guest: string, owner: string) returns (r: Result<int, ShardError>)
      modifies this
      ensures (View(), r) == Guests.HandOver(old(View()), guest, owner)
    {
      if guest == owner {
        return Success(0);
      }
      var transaction := new InMemoryTransaction<Ledger>();
      var context := new ShardTransactionContext(transaction);
      var wallet := ReadWallet(guest);
      var amount := wallet.balance;
      if amount <= 0 {
        return Success(0);
      }
      var debited := ApplyInTransaction(context, Move(guest, -amount, GuestClaim, Named(owner)));
      if debited.Failure? {
        return Failure(debited.error);
      }
      if debited.value.Duplicate? {
        return Success(0);
      }
      var credited := ApplyInTransaction(context, Move(owner, amount, GuestClaim, Named(guest)));
      if credited.Failure? {
        return Failure(credited.error);
      }
      if credited.value.Duplicate? {
        return Failure(GuestClaimBroken);
      }
      ghost var staged := [(debited.value.entry, debited.value.wallet), (credited.value.entry, credited.value.wallet)];
      TwoStaged(debited.value.entry, debited.value.wallet, credited.value.entry, credited.value.wallet);
      WritesCommit(View(), staged, []);
      TwoWritten(View(), debited.value.entry, debited.value.wallet, credited.value.entry, credited.value.wallet);
      var ok := Commit(transaction);
      r := Success(amount);
    }
  }
}
