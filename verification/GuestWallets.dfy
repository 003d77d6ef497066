/** Handing a guest's wallet over to an account (`claim_guest_wallet`): two
    entries under a pair of keys, in one caller-owned transaction. */
module GuestWallets {
  import opened Wrappers
  import opened LedgerModel
  import opened LedgerInvariant
  import opened StagedMoves

  /** The key of the entry in `user`'s wallet for a hand-over with `other`. */
  function PairKey(user: string, other: string): Key { Key(user, GuestClaim, Named(other)) }

  /** Stage both sides and commit them together. The amount is the guest's
      committed balance; nobody passes one in. */
  function HandOver(l: Ledger, guest: string, owner: string): (Ledger, Result<int, ShardError>) {
    var amount := WalletOf(l, guest).balance;
    if guest == owner || amount <= 0 then (l, Success(0))
    else
      match Stage(l, {}, Move(guest, -amount, GuestClaim, Named(owner)))
      case Failure(e) => (l, Failure(e))
      case Success(Duplicate(_)) => (l, Success(0))
      case Success(Fresh(debit, guestWallet)) =>
        match Stage(l, {guest}, Move(owner, amount, GuestClaim, Named(guest)))
        case Failure(e) => (l, Failure(e))
        case Success(Duplicate(_)) => (l, Failure(GuestClaimBroken))
        case Success(Fresh(credit, ownerWallet)) =>
          (LedgerModel.Write(LedgerModel.Write(l, debit, guestWallet), credit, ownerWallet), Success(amount))
  }

  /** Of a pair's two keys both are applied, or neither. */
  ghost predicate Paired(l: Ledger) {
    forall a: string, b: string :: PairKey(a, b) in l.applied ==> PairKey(b, a) in l.applied
  }

  /** A hand-over never fails; in particular `GuestClaimBroken` is unreachable.
      It moves the guest's whole balance the first time and nothing for a pair
      that was handed over before, in this direction or the other one. */
  lemma HandOverOutcome(l: Ledger, guest: string, owner: string)
    requires Core(l) && Paired(l)
    ensures var (after, r) := HandOver(l, guest, owner);
            && r.Success?
            && r.value == (if guest == owner || PairKey(guest, owner) in l.applied then 0
                           else WalletOf(l, guest).balance)
            && (r.value == 0 ==> after == l)
            && (r.value > 0 ==> PairKey(guest, owner) in after.applied && PairKey(owner, guest) in after.applied)
  {
    assert WalletOf(l, guest).balance >= 0 && WalletOf(l, owner).balance >= 0;
    assert PairKey(owner, guest) in l.applied ==> PairKey(guest, owner) in l.applied;
  }

  /** Shards change hands and none appear or vanish: what the guest loses the
      owner gains, and nobody else's wallet is touched. */
  lemma HandOverConserves(l: Ledger, guest: string, owner: string, user: string)
    requires Core(l) && Paired(l) && guest != owner
    ensures var (after, r) := HandOver(l, guest, owner);
            && r.Success?
            && WalletOf(after, guest).balance == WalletOf(l, guest).balance - r.value
            && WalletOf(after, owner).balance == WalletOf(l, owner).balance + r.value
            && (user != guest && user != owner ==> WalletOf(after, user) == WalletOf(l, user))
            && (r.value > 0 ==> WalletOf(after, guest).balance == 0)
  {
    HandOverOutcome(l, guest, owner);
  }

  /** A hand-over that moves something is two appended entries. */
  lemma HandOverWrites(l: Ledger, guest: string, owner: string) returns (e: Entry, w: Wallet, f: Entry, v: Wallet)
    requires HandOver(l, guest, owner).1.Success? && HandOver(l, guest, owner).1.value > 0
    ensures HandOver(l, guest, owner).0 == LedgerModel.Write(LedgerModel.Write(l, e, w), f, v)
    ensures Appendable(l, e, w) && Appendable(l, f, v)
    ensures e.user == guest && f.user == owner && guest != owner
    ensures e.key == Some(PairKey(guest, owner)) && f.key == Some(PairKey(owner, guest))
  {
    var amount := WalletOf(l, guest).balance;
    var one := Stage(l, {}, Move(guest, -amount, GuestClaim, Named(owner))).value;
    var two := Stage(l, {guest}, Move(owner, amount, GuestClaim, Named(guest))).value;
    e, w, f, v := one.entry, one.wallet, two.entry, two.wallet;
  }

  lemma HandOverKeepsCore(l: Ledger, guest: string, owner: string)
    requires Core(l) && Paired(l)
    ensures Core(HandOver(l, guest, owner).0)
  {
    var (after, r) := HandOver(l, guest, owner);
    if after != l {
      MovesWhenChanged(l, guest, owner);
      var e, w, f, v := HandOverWrites(l, guest, owner);
      TwoWrites(l, e, w, f, v);
    }
  }

  lemma MovesWhenChanged(l: Ledger, guest: string, owner: string)
    requires HandOver(l, guest, owner).0 != l
    ensures HandOver(l, guest, owner).1.Success? && HandOver(l, guest, owner).1.value > 0
  {
  }

  lemma HandOverKeepsPairs(l: Ledger, guest: string, owner: string)
    requires Paired(l)
    ensures Paired(HandOver(l, guest, owner).0)
  {
    var (after, r) := HandOver(l, guest, owner);
    if after != l {
      MovesWhenChanged(l, guest, owner);
      var e, w, f, v := HandOverWrites(l, guest, owner);
      PairsAdded(l, after, guest, owner);
    }
  }

  lemma TwoWrites(l: Ledger, e: Entry, w: Wallet, f: Entry, v: Wallet)
    requires Core(l) && Appendable(l, e, w) && Appendable(l, f, v) && e.user != f.user && e.key != f.key
    ensures Core(LedgerModel.Write(LedgerModel.Write(l, e, w), f, v))
  {
    WriteKeepsCore(l, e, w);
    WriteKeepsCore(LedgerModel.Write(l, e, w), f, v);
  }

  lemma PairsAdded(l: Ledger, after: Ledger, guest: string, owner: string)
    requires Paired(l)
    requires after.applied.Keys == l.applied.Keys + {PairKey(guest, owner), PairKey(owner, guest)}
    ensures Paired(after)
  {
  }
}
