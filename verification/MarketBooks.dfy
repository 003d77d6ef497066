/** The marketplace's side of the ledger: which keys it has used, and what it did
    to the number of shards. */
module MarketBooks {
  import opened Wrappers
  import opened LedgerModel
  import opened StagedMoves
  import opened MarketModel
  import opened MarketInvariant
  import Runs = LedgerRuns
  import Theorems = LedgerTheorems

  ghost predicate Books(s: Shop) { Runs.Sound(s.ledger) && KeysOk(s) && SumOk(s) }

  ghost predicate Inv(s: Shop) {
    ListingsOk(s) && TitlesOk(s) && RelationsOk(s) && BlocksOk(s) && LogOk(s) && Books(s)
  }

  lemma EmptyInv()
    ensures Inv(EMPTY_SHOP)
  {
    Runs.EmptyIsSound();
    assert FeesPaid(EMPTY_SHOP) == {} && PaidBack(EMPTY_SHOP) == {};
  }

  lemma MarketSumAppend(es: seq<Entry>, e: Entry)
    ensures MarketSum(es + [e]) == MarketSum(es) + if MarketReason(e.reason) then e.delta else 0
  {
    assert (es + [e])[..|es|] == es;
  }

  // Staged movements as applied ones.

  /** A fresh staged movement writes what `apply` would write. */
  lemma FreshIsApplied(l: Ledger, changed: set<string>, m: Move)
    requires Stage(l, changed, m).Success? && Stage(l, changed, m).value.Fresh?
    ensures var st := Stage(l, changed, m).value;
            && m.Key() !in l.applied
            && Landed(l, st) == ApplyKeyed(l, m.user, m.delta, m.reason, m.event).0
            && Landed(l, st) == LedgerModel.Write(l, st.entry, st.wallet)
            && st.entry.key == Some(m.Key()) && st.entry.reason == m.reason && st.entry.delta == m.delta
            && st.entry.user == m.user
  {
  }

  lemma LandedKeepsSound(l: Ledger, m: Move)
    requires Runs.Sound(l) && Runs.OpenReason(m.reason) && Stage(l, {}, m).Success?
    ensures Runs.Sound(Landed(l, Stage(l, {}, m).value))
  {
    if Stage(l, {}, m).value.Fresh? {
      FreshIsApplied(l, {}, m);
      Runs.ApplyKeepsSound(l, m.user, m.delta, m.reason, Some(m.Key()), None);
    }
  }

  /** A paid purchase is one debit of the buyer and one credit of the seller. */
  lemma PaidIsTwoMoves(l: Ledger, p: Pair, x: Listing)
    requires x.price > 0 && x.seller != p.user && Paid(l, p, x).Success?
    requires PurchaseMove(p, x).Key() !in l.applied && SaleMove(p, x).Key() !in l.applied
    ensures var m, n := PurchaseMove(p, x), SaleMove(p, x);
            var a := Stage(l, {}, m);
            && a.Success? && a.value.Fresh?
            && var mid := Landed(l, a.value);
               var b := Stage(l, {p.user}, n);
               && b.Success? && b.value.Fresh?
               && Stage(mid, {}, n) == b
               && Paid(l, p, x).value == Landed(mid, b.value)
  {
  }

  lemma PaidKeepsSound(l: Ledger, p: Pair, x: Listing)
    requires Runs.Sound(l) && x.seller != p.user && Paid(l, p, x).Success?
    requires PurchaseMove(p, x).Key() !in l.applied && SaleMove(p, x).Key() !in l.applied
    ensures Runs.Sound(Paid(l, p, x).value)
  {
    if x.price > 0 {
      PaidIsTwoMoves(l, p, x);
      LandedKeepsSound(l, PurchaseMove(p, x));
      LandedKeepsSound(Landed(l, Stage(l, {}, PurchaseMove(p, x)).value), SaleMove(p, x));
    }
  }

  lemma PaidEntries(l: Ledger, p: Pair, x: Listing)
    requires x.price > 0 && x.seller != p.user && Paid(l, p, x).Success?
    requires PurchaseMove(p, x).Key() !in l.applied && SaleMove(p, x).Key() !in l.applied
    ensures var m := Paid(l, p, x).value;
            && m.applied.Keys == l.applied.Keys + {PurchaseMove(p, x).Key(), SaleMove(p, x).Key()}
            && MarketSum(m.entries) == MarketSum(l.entries)
  {
    PaidIsTwoMoves(l, p, x);
    var a := Stage(l, {}, PurchaseMove(p, x)).value;
    var b := Stage(l, {p.user}, SaleMove(p, x)).value;
    MarketSumAppend(l.entries, a.entry);
    MarketSumAppend(l.entries + [a.entry], b.entry);
  }

  // Operations that leave the books alone.

  predicate PaidFee(s: Shop, id: string) { id in s.listings && s.listings[id].feePaid }
  predicate WasDown(s: Shop, id: string) { id in s.listings && EverDown(s, id) }

  /** Same listings or more, nothing paid or taken down in between. */
  ghost predicate SameAccounts(s: Shop, t: Shop) {
    && t.owned == s.owned && t.ledger == s.ledger
    && (forall id :: id in s.listings ==> id in t.listings && SameIdentity(s.listings[id], t.listings[id]))
    && (forall id :: PaidFee(s, id) <==> PaidFee(t, id))
    && (forall id :: WasDown(s, id) <==> WasDown(t, id))
    && (forall id :: Compensated(s, id) <==> Compensated(t, id))
  }

  lemma SameAccountsKeepBooks(s: Shop, t: Shop)
    requires Books(s) && SameAccounts(s, t) && forall p :: p in s.owned ==> p.listing in s.listings
    ensures Books(t)
  {
    SameAccountsKeepSets(s, t);
    SumStays(s, t);
    SameAccountsKeepKeys(s, t);
  }

  lemma SameAccountsKeepSets(s: Shop, t: Shop)
    requires SameAccounts(s, t)
    ensures FeesPaid(t) == FeesPaid(s) && PaidBack(t) == PaidBack(s)
  {
    assert FeesPaid(t) == FeesPaid(s) by {
      forall id ensures id in FeesPaid(t) <==> id in FeesPaid(s) { assert PaidFee(s, id) <==> PaidFee(t, id); }
    }
    assert PaidBack(t) == PaidBack(s) by {
      forall id ensures id in PaidBack(t) <==> id in PaidBack(s) { assert Compensated(s, id) <==> Compensated(t, id); }
    }
  }

  lemma SameAccountsKeepKeys(s: Shop, t: Shop)
    requires KeysOk(s) && SameAccounts(s, t) && forall p :: p in s.owned ==> p.listing in s.listings
    ensures KeysOk(t)
  {
    forall k: Key | MarketReason(k.reason) ensures Justified(t, k) <==> Justified(s, k) || k in {} {
      SameAccountsJustify(s, t, k);
    }
    KeysGain(s, t, {});
  }

  lemma SameAccountsJustify(s: Shop, t: Shop, k: Key)
    requires SameAccounts(s, t) && forall p :: p in s.owned ==> p.listing in s.listings
    ensures Justified(s, k) <==> Justified(t, k)
  {
    match k.event
    case Named(id) =>
      assert PaidFee(s, id) <==> PaidFee(t, id);
      assert WasDown(s, id) <==> WasDown(t, id);
    case Bought(buyer, id) =>
      assert Pair(buyer, id) in s.owned ==> id in s.listings;
    case RefundOf(_) =>
  }

  ghost predicate SameCompensations(l: Ledger, m: Ledger) {
    forall k: Key :: k.reason.ModerationCompensation? ==> (k in l.applied <==> k in m.applied)
  }

  /** One listing rewritten with the same fee, and no compensation paid. */
  lemma EditKeepsSets(s: Shop, t: Shop, id: string)
    requires Edited(s, t, id) && t.listings[id].feePaid == s.listings[id].feePaid
    requires SameCompensations(s.ledger, t.ledger)
    ensures FeesPaid(t) == FeesPaid(s) && PaidBack(t) == PaidBack(s)
  {
    forall i ensures (Compensated(s, i) <==> Compensated(t, i)) && (i in FeesPaid(s) <==> i in FeesPaid(t)) {
    }
  }

  lemma SumStays(s: Shop, t: Shop)
    requires SumOk(s) && MarketSum(t.ledger.entries) == MarketSum(s.ledger.entries)
    requires FeesPaid(t) == FeesPaid(s) && PaidBack(t) == PaidBack(s)
    ensures SumOk(t)
  {
  }

  /** One listing rewritten with the same fee and history. */
  lemma EditKeepsBooks(s: Shop, t: Shop, id: string)
    requires Books(s) && OwnedOk(s) && Edited(s, t, id)
    requires t.owned == s.owned && t.ledger == s.ledger
    requires t.listings[id].feePaid == s.listings[id].feePaid
    requires forall i :: EverDown(s, i) <==> EverDown(t, i)
    ensures Books(t)
  {
    EditKeepsAccounts(s, t, id);
    SameAccountsKeepBooks(s, t);
  }

  lemma EditKeepsAccounts(s: Shop, t: Shop, id: string)
    requires Edited(s, t, id) && t.owned == s.owned && t.ledger == s.ledger
    requires t.listings[id].feePaid == s.listings[id].feePaid
    requires forall i :: EverDown(s, i) <==> EverDown(t, i)
    ensures SameAccounts(s, t)
  {
  }

  lemma DraftKeepsBooks(s: Shop, op: Op)
    requires Books(s) && OwnedOk(s) && LogOk(s) && op.DoDraft? && ValidOp(s, op)
    ensures Books(Step(s, op).0)
  {
    var t := Step(s, op).0;
    if t != s {
      DraftAdds(s, op);
      assert KeysOk(s);
      NewListingKeepsAccounts(s, t, op.id);
      SameAccountsKeepBooks(s, t);
    }
  }

  lemma NewListingKeepsAccounts(s: Shop, t: Shop, id: string)
    requires LogOk(s) && KeysOk(s) && id !in s.listings && id in t.listings && t == SetListing(s, id, t.listings[id])
    requires !t.listings[id].feePaid
    ensures SameAccounts(s, t)
  {
    NeverMentioned(s.log, id);
    assert !Justified(s, CompensationMove(id, t.listings[id]).Key());
    forall i ensures WasDown(s, i) <==> WasDown(t, i) { assert t.log == s.log; }
  }

  lemma RestoreKeepsBooks(s: Shop, op: Op)
    requires Books(s) && OwnedOk(s) && LogOk(s) && op.DoRestore?
    ensures Books(Step(s, op).0)
  {
    var t := Step(s, op).0;
    if t != s {
      OperatorEdits(s, op);
      forall i ensures EverDown(s, i) <==> EverDown(t, i) {
        LastActionAppend(s.log, ModerationEvent(op.id, Restored, op.actor), i);
      }
      assert t.ledger == s.ledger;
      EditKeepsBooks(s, t, op.id);
    }
  }

  // Operations that pay.

  /** The books after `keys` were added to the ledger and to what justifies them. */
  lemma KeysGain(s: Shop, t: Shop, keys: set<Key>)
    requires KeysOk(s) && t.ledger.applied.Keys == s.ledger.applied.Keys + keys
    requires forall k: Key :: MarketReason(k.reason) ==> (Justified(t, k) <==> Justified(s, k) || k in keys)
    ensures KeysOk(t)
  {
  }

  lemma PublishKeepsBooks(s: Shop, id: string, seller: string, now: int)
    requires Books(s) && OwnedOk(s)
    ensures Books(Publish(s, id, seller, now).0)
  {
    var t := Publish(s, id, seller, now).0;
    if t != s {
      PublishEdits(s, id, seller, now);
      var x := s.listings[id];
      assert Edited(s, t, id) && forall i :: EverDown(s, i) <==> EverDown(t, i);
      if x.feePaid {
        EditKeepsBooks(s, t, id);
      } else {
        FeeEnters(s, t, id);
      }
    }
  }

  lemma FeeEnters(s: Shop, t: Shop, id: string)
    requires Books(s) && Edited(s, t, id) && !s.listings[id].feePaid && t.listings[id].feePaid
    requires t.owned == s.owned && t.log == s.log
    requires var fee := Stage(s.ledger, {}, FeeMove(id, s.listings[id]));
             fee.Success? && t.ledger == Landed(s.ledger, fee.value)
    ensures Books(t)
  {
    LandedKeepsSound(s.ledger, FeeMove(id, s.listings[id]));
    FeeEntersKeys(s, t, id);
    FeeEntersSum(s, t, id);
  }

  lemma FeeEntersKeys(s: Shop, t: Shop, id: string)
    requires KeysOk(s) && Edited(s, t, id) && !s.listings[id].feePaid && t.listings[id].feePaid
    requires t.owned == s.owned && t.log == s.log
    requires var fee := Stage(s.ledger, {}, FeeMove(id, s.listings[id]));
             fee.Success? && t.ledger == Landed(s.ledger, fee.value)
    ensures KeysOk(t) && FeeMove(id, s.listings[id]).Key() !in s.ledger.applied
  {
    var m := FeeMove(id, s.listings[id]);
    assert !Justified(s, m.Key());
    FreshIsApplied(s.ledger, {}, m);
    forall k: Key | MarketReason(k.reason) ensures Justified(t, k) <==> Justified(s, k) || k in {m.Key()} {
      FeeJustifies(s, t, id, k);
    }
    KeysGain(s, t, {m.Key()});
  }

  lemma FeeEntersSum(s: Shop, t: Shop, id: string)
    requires SumOk(s) && Edited(s, t, id) && !s.listings[id].feePaid && t.listings[id].feePaid && t.log == s.log
    requires FeeMove(id, s.listings[id]).Key() !in s.ledger.applied
    requires var fee := Stage(s.ledger, {}, FeeMove(id, s.listings[id]));
             fee.Success? && t.ledger == Landed(s.ledger, fee.value)
    ensures SumOk(t)
  {
    var m := FeeMove(id, s.listings[id]);
    FreshIsApplied(s.ledger, {}, m);
    MarketSumAppend(s.ledger.entries, Stage(s.ledger, {}, m).value.entry);
    assert FeesPaid(t) == FeesPaid(s) + {id};
    assert PaidBack(t) == PaidBack(s);
  }

  lemma FeeJustifies(s: Shop, t: Shop, id: string, k: Key)
    requires Edited(s, t, id) && !s.listings[id].feePaid && t.listings[id].feePaid
    requires t.owned == s.owned && t.log == s.log
    ensures Justified(t, k) <==> Justified(s, k) || k == FeeMove(id, s.listings[id]).Key()
  {
  }

  lemma TakedownKeepsBooks(s: Shop, op: Op)
    requires Books(s) && OwnedOk(s) && op.DoTakedown?
    ensures Books(Step(s, op).0)
  {
    var t := Step(s, op).0;
    if t != s {
      TakedownEdits(s, op);
      DownIsEdited(s, op.id, op.actor, t.ledger);
      if !op.notified {
        UnnoticedEnters(s, t, op.id);
      } else {
        NotifiedEnters(s, t, op.id);
      }
    }
  }

  lemma DownIsEdited(s: Shop, id: string, actor: string, l: Ledger)
    requires id in s.listings
    ensures var t := GoesDown(s, id, actor, l);
            && Edited(s, t, id) && t.listings[id].feePaid == s.listings[id].feePaid && t.owned == s.owned
            && forall i :: EverDown(t, i) <==> EverDown(s, i) || i == id
  {
    forall i ensures EverDown(GoesDown(s, id, actor, l), i) <==> EverDown(s, i) || i == id {
      LastActionAppend(s.log, ModerationEvent(id, TookDown, actor), i);
    }
  }

  /** With its notification it pays the first time. */
  lemma NotifiedEnters(s: Shop, t: Shop, id: string)
    requires Books(s) && OwnedOk(s) && Edited(s, t, id) && t.listings[id].feePaid == s.listings[id].feePaid
    requires t.owned == s.owned && forall i :: EverDown(t, i) <==> EverDown(s, i) || i == id
    requires var paid := Stage(s.ledger, {}, CompensationMove(id, s.listings[id]));
             paid.Success? && t.ledger == Landed(s.ledger, paid.value)
    ensures Books(t)
  {
    if Compensated(s, id) {
      assert KeysOk(s);
      assert Justified(s, CompensationMove(id, s.listings[id]).Key());
      EditKeepsBooks(s, t, id);
    } else {
      CompensationEnters(s, t, id);
    }
  }

  /** Without its notification a takedown leaves a trace in the log alone. */
  lemma UnnoticedEnters(s: Shop, t: Shop, id: string)
    requires Books(s) && Edited(s, t, id) && t.listings[id].feePaid == s.listings[id].feePaid
    requires t.owned == s.owned && t.ledger == s.ledger && forall i :: EverDown(t, i) <==> EverDown(s, i) || i == id
    ensures Books(t)
  {
    UnnoticedKeepsKeys(s, t, id);
    EditKeepsSets(s, t, id);
    SumStays(s, t);
  }

  lemma UnnoticedKeepsKeys(s: Shop, t: Shop, id: string)
    requires KeysOk(s) && Edited(s, t, id) && t.listings[id].feePaid == s.listings[id].feePaid
    requires t.owned == s.owned && t.ledger == s.ledger && forall i :: EverDown(t, i) <==> EverDown(s, i) || i == id
    ensures KeysOk(t)
  {
    forall k: Key | MarketReason(k.reason)
      ensures k in t.ledger.applied ==> Justified(t, k)
      ensures Justified(t, k) && !k.reason.ModerationCompensation? ==> k in t.ledger.applied
    {
      CompensationJustifies(s, t, id, k);
    }
  }

  lemma CompensationEnters(s: Shop, t: Shop, id: string)
    requires Books(s) && Edited(s, t, id) && !Compensated(s, id) && t.listings[id].feePaid == s.listings[id].feePaid
    requires t.owned == s.owned && forall i :: EverDown(t, i) <==> EverDown(s, i) || i == id
    requires var paid := Stage(s.ledger, {}, CompensationMove(id, s.listings[id]));
             paid.Success? && t.ledger == Landed(s.ledger, paid.value)
    ensures Books(t)
  {
    LandedKeepsSound(s.ledger, CompensationMove(id, s.listings[id]));
    CompensationEntersKeys(s, t, id);
    CompensationEntersSum(s, t, id);
  }

  lemma CompensationEntersKeys(s: Shop, t: Shop, id: string)
    requires KeysOk(s) && Edited(s, t, id) && !Compensated(s, id) && t.listings[id].feePaid == s.listings[id].feePaid
    requires t.owned == s.owned && forall i :: EverDown(t, i) <==> EverDown(s, i) || i == id
    requires var paid := Stage(s.ledger, {}, CompensationMove(id, s.listings[id]));
             paid.Success? && t.ledger == Landed(s.ledger, paid.value)
    ensures KeysOk(t) && CompensationMove(id, s.listings[id]).Key() !in s.ledger.applied
  {
    var m := CompensationMove(id, s.listings[id]);
    FreshIsApplied(s.ledger, {}, m);
    forall k: Key | MarketReason(k.reason) ensures Justified(t, k) <==> Justified(s, k) || k in {m.Key()} {
      CompensationJustifies(s, t, id, k);
    }
    KeysGain(s, t, {m.Key()});
  }

  lemma CompensationSets(s: Shop, t: Shop, id: string)
    requires Edited(s, t, id) && !Compensated(s, id) && t.listings[id].feePaid == s.listings[id].feePaid
    requires t.ledger.applied.Keys == s.ledger.applied.Keys + {CompensationMove(id, s.listings[id]).Key()}
    ensures PaidBack(t) == PaidBack(s) + {id} && id !in PaidBack(s) && FeesPaid(t) == FeesPaid(s)
  {
    forall i ensures Compensated(t, i) <==> Compensated(s, i) || i == id {
      if i in s.listings {
        var k := CompensationMove(i, s.listings[i]).Key();
        assert k in t.ledger.applied.Keys <==> k in s.ledger.applied.Keys || i == id;
      }
    }
  }

  lemma CompensationEntersSum(s: Shop, t: Shop, id: string)
    requires SumOk(s) && Edited(s, t, id) && !Compensated(s, id) && t.listings[id].feePaid == s.listings[id].feePaid
    requires var paid := Stage(s.ledger, {}, CompensationMove(id, s.listings[id]));
             paid.Success? && t.ledger == Landed(s.ledger, paid.value)
    ensures SumOk(t)
  {
    var m := CompensationMove(id, s.listings[id]);
    FreshIsApplied(s.ledger, {}, m);
    MarketSumAppend(s.ledger.entries, Stage(s.ledger, {}, m).value.entry);
    CompensationSets(s, t, id);
  }

  lemma CompensationJustifies(s: Shop, t: Shop, id: string, k: Key)
    requires Edited(s, t, id) && t.listings[id].feePaid == s.listings[id].feePaid
    requires t.owned == s.owned && forall i :: EverDown(t, i) <==> EverDown(s, i) || i == id
    ensures Justified(t, k) <==> Justified(s, k) || k == CompensationMove(id, s.listings[id]).Key()
  {
    match k.event
    case Named(i) => assert EverDown(t, i) <==> EverDown(s, i) || i == id;
    case _ =>
  }

  lemma AcquireKeepsBooks(s: Shop, id: string, buyer: string)
    requires Books(s) && OwnedOk(s)
    ensures Books(Acquire(s, id, buyer).0)
  {
    var t := Acquire(s, id, buyer).0;
    if t != s {
      AcquireEdits(s, id, buyer);
      PurchaseEnters(s, t, Pair(buyer, id));
    }
  }

  lemma PurchaseEnters(s: Shop, t: Shop, p: Pair)
    requires Books(s) && Edited(s, t, p.listing) && p !in s.owned && s.listings[p.listing].seller != p.user
    requires t.listings[p.listing].feePaid == s.listings[p.listing].feePaid && t.log == s.log
    requires t.owned.Keys == s.owned.Keys + {p}
    requires Paid(s.ledger, p, s.listings[p.listing]) == Success(t.ledger)
    ensures Books(t)
  {
    PurchaseIsFresh(s, p);
    PaidKeepsSound(s.ledger, p, s.listings[p.listing]);
    PurchaseEntersKeys(s, t, p);
    PurchaseEntersSum(s, t, p);
  }

  /** Whoever owns nothing of a listing has never paid for it. */
  lemma PurchaseIsFresh(s: Shop, p: Pair)
    requires KeysOk(s) && p.listing in s.listings && p !in s.owned
    ensures var x := s.listings[p.listing];
            PurchaseMove(p, x).Key() !in s.ledger.applied && SaleMove(p, x).Key() !in s.ledger.applied
  {
    var x := s.listings[p.listing];
    assert !Justified(s, PurchaseMove(p, x).Key()) && !Justified(s, SaleMove(p, x).Key());
  }

  lemma PurchaseEntersKeys(s: Shop, t: Shop, p: Pair)
    requires KeysOk(s) && Edited(s, t, p.listing) && p !in s.owned && s.listings[p.listing].seller != p.user
    requires t.listings[p.listing].feePaid == s.listings[p.listing].feePaid && t.log == s.log
    requires t.owned.Keys == s.owned.Keys + {p}
    requires Paid(s.ledger, p, s.listings[p.listing]) == Success(t.ledger)
    ensures KeysOk(t)
  {
    PurchaseIsFresh(s, p);
    var x := s.listings[p.listing];
    var m, n := PurchaseMove(p, x), SaleMove(p, x);
    var keys := if x.price > 0 then {m.Key(), n.Key()} else {};
    if x.price > 0 {
      PaidEntries(s.ledger, p, x);
    }
    forall k: Key | MarketReason(k.reason) ensures Justified(t, k) <==> Justified(s, k) || k in keys {
      PurchaseJustifies(s, t, p, k);
    }
    KeysGain(s, t, keys);
  }

  lemma PaidCompensatesNothing(l: Ledger, p: Pair, x: Listing)
    requires x.seller != p.user && Paid(l, p, x).Success?
    requires PurchaseMove(p, x).Key() !in l.applied && SaleMove(p, x).Key() !in l.applied
    ensures SameCompensations(l, Paid(l, p, x).value)
  {
    if x.price > 0 {
      PaidEntries(l, p, x);
      var m := Paid(l, p, x).value;
      forall k: Key | k.reason.ModerationCompensation? ensures k in l.applied <==> k in m.applied {
        assert k in m.applied.Keys <==> k in l.applied.Keys + {PurchaseMove(p, x).Key(), SaleMove(p, x).Key()};
      }
    }
  }

  lemma PurchaseEntersSum(s: Shop, t: Shop, p: Pair)
    requires SumOk(s) && Edited(s, t, p.listing) && s.listings[p.listing].seller != p.user && t.log == s.log
    requires var x := s.listings[p.listing];
             PurchaseMove(p, x).Key() !in s.ledger.applied && SaleMove(p, x).Key() !in s.ledger.applied
    requires t.listings[p.listing].feePaid == s.listings[p.listing].feePaid
    requires Paid(s.ledger, p, s.listings[p.listing]) == Success(t.ledger)
    ensures SumOk(t)
  {
    var x := s.listings[p.listing];
    if x.price > 0 {
      PaidEntries(s.ledger, p, x);
    }
    PaidCompensatesNothing(s.ledger, p, x);
    EditKeepsSets(s, t, p.listing);
    SumStays(s, t);
  }

  lemma PurchaseJustifies(s: Shop, t: Shop, p: Pair, k: Key)
    requires Edited(s, t, p.listing) && t.listings[p.listing].feePaid == s.listings[p.listing].feePaid
    requires t.log == s.log && t.owned.Keys == s.owned.Keys + {p}
    ensures var x := s.listings[p.listing];
            Justified(t, k) <==>
              (Justified(s, k) || (x.price > 0 && (k == PurchaseMove(p, x).Key() || k == SaleMove(p, x).Key())))
  {
  }

  // The ledger moves elsewhere.

  lemma {:induction false} SerialKeepsMarketSum(l: Ledger, moves: seq<Move>)
    requires SerialAll(l, moves).Success? && forall m :: m in moves ==> !MarketReason(m.reason)
    ensures MarketSum(SerialAll(l, moves).value.0.entries) == MarketSum(l.entries)
    decreases |moves|
  {
    if moves != [] {
      var m := moves[0];
      ApplyKeepsMarketSum(l, m.user, m.delta, m.reason, Some(m.Key()), None, None);
      SerialKeepsMarketSum(ApplyKeyed(l, m.user, m.delta, m.reason, m.event).0, moves[1..]);
    }
  }

  lemma ApplyKeepsMarketSum(l: Ledger, user: string, delta: int, reason: ShardReason, key: Option<Key>,
                            quota: Option<PeriodQuota>, claim: Option<ExclusiveClaim>)
    requires !MarketReason(reason)
    ensures MarketSum(Apply(l, user, delta, reason, key, quota, claim).0.entries) == MarketSum(l.entries)
  {
    var (after, r) := Apply(l, user, delta, reason, key, quota, claim);
    if r.Success? && r.value.applied {
      MarketSumAppend(l.entries, r.value.entry);
    }
  }

  lemma AppleKeepsMarketSum(l: Ledger, op: Runs.Op)
    requires op.RefundNotice? || op.ReversalNotice?
    ensures MarketSum(Runs.Step(l, op).entries) == MarketSum(l.entries)
  {
    if Runs.Step(l, op) != l {
      var t := op.transaction;
      if op.RefundNotice? {
        Runs.IapLifecycle.RefundSplits(l, t);
        var user := Runs.IapModel.RefundTarget(t).value;
        var plan := Runs.IapModel.Plan(t, user, l.claims[Runs.IapModel.Slot(t.id)]).value;
        var taken := Runs.IapLifecycle.Taken(l, user, plan.requested);
        MarketSumAppend(l.entries, Runs.IapLifecycle.BackEntry(l, t, user, taken));
      } else {
        Runs.IapLifecycle.ReversalSplits(l, t);
        var record := l.claims[Runs.IapModel.RecordSlot(t.id)];
        MarketSumAppend(l.entries,
                        Runs.IapLifecycle.ReturnEntry(l, t, t.token.value, record.recovered - record.reversed));
      }
    }
  }

  lemma HandOverKeepsMarketSum(l: Ledger, guest: string, owner: string)
    ensures MarketSum(Runs.GuestWallets.HandOver(l, guest, owner).0.entries) == MarketSum(l.entries)
  {
    if Runs.GuestWallets.HandOver(l, guest, owner).0 != l {
      Runs.GuestWallets.MovesWhenChanged(l, guest, owner);
      var e, w, f, v := Runs.GuestWallets.HandOverWrites(l, guest, owner);
      HandOverReasons(l, guest, owner);
    }
  }

  lemma HandOverReasons(l: Ledger, guest: string, owner: string)
    requires Runs.GuestWallets.HandOver(l, guest, owner).0 != l
    ensures MarketSum(Runs.GuestWallets.HandOver(l, guest, owner).0.entries) == MarketSum(l.entries)
  {
    var amount := WalletOf(l, guest).balance;
    var one := Stage(l, {}, Move(guest, -amount, GuestClaim, Named(owner))).value;
    var two := Stage(l, {guest}, Move(owner, amount, GuestClaim, Named(guest))).value;
    MarketSumAppend(l.entries, one.entry);
    MarketSumAppend(l.entries + [one.entry], two.entry);
  }

  lemma ElsewhereKeepsMarketSum(l: Ledger, op: Runs.Op)
    requires NotMarket(op)
    ensures MarketSum(Runs.Step(l, op).entries) == MarketSum(l.entries)
  {
    match op
    case Credit(user, amount, reason, event, gate) =>
      ApplyKeepsMarketSum(l, user, amount, reason, Runs.KeyFor(user, reason, event),
                          Runs.QuotaFor(user, reason, gate), None);
    case Debit(user, amount, reason, event) =>
      ApplyKeepsMarketSum(l, user, -amount, reason, Runs.KeyFor(user, reason, event), None, None);
    case Batch(moves) =>
      StagedRefinesSerial(l, moves);
      if StageAll(l, {}, moves).Success? { SerialKeepsMarketSum(l, moves); }
    case Claim(guest, owner) => HandOverKeepsMarketSum(l, guest, owner);
    case PayOut(user, t, amount) =>
      var document := Document("", t.product, t.environment, amount, 0, 0, 0, 0);
      ApplyKeepsMarketSum(l, user, amount, IapPurchase, Some(Runs.IapModel.BuyKey(user, t.id)), None,
                          Some(ExclusiveClaim(Runs.IapModel.Slot(t.id), document)));
    case _ => AppleKeepsMarketSum(l, op);
  }

  lemma ElsewhereKeepsBooks(s: Shop, other: Runs.Op)
    requires Books(s) && Runs.ValidOp(other) && NotMarket(other)
    ensures Books(Step(s, Elsewhere(other)).0)
  {
    var t := Step(s, Elsewhere(other)).0;
    Runs.StepKeepsSound(s.ledger, other);
    Theorems.StepExtends(s.ledger, other);
    ElsewhereKeepsKeys(s, other);
    ElsewhereKeepsMarketSum(s.ledger, other);
    ElsewhereKeepsSets(s, other);
    SumStays(s, t);
  }

  lemma ElsewhereKeepsSets(s: Shop, other: Runs.Op)
    requires NotMarket(other) && Theorems.Extends(s.ledger, Runs.Step(s.ledger, other))
    ensures var t := s.(ledger := Runs.Step(s.ledger, other)); FeesPaid(t) == FeesPaid(s) && PaidBack(t) == PaidBack(s)
  {
    var t := s.(ledger := Runs.Step(s.ledger, other));
    forall i ensures Compensated(s, i) <==> Compensated(t, i) {
      ElsewhereCompensatesNothing(s, other, i);
    }
  }

  lemma ElsewhereAddsNoKey(l: Ledger, other: Runs.Op, k: Key)
    requires NotMarket(other) && Theorems.Extends(l, Runs.Step(l, other)) && MarketReason(k.reason)
    ensures k in Runs.Step(l, other).applied <==> k in l.applied
  {
    if k !in l.applied {
      assert !Theorems.MayWrite(other, k);
      Theorems.OnlyWrites(l, other, k);
    }
  }

  lemma ElsewhereCompensatesNothing(s: Shop, other: Runs.Op, id: string)
    requires NotMarket(other) && Theorems.Extends(s.ledger, Runs.Step(s.ledger, other))
    ensures Compensated(s, id) <==> Compensated(s.(ledger := Runs.Step(s.ledger, other)), id)
  {
    if id in s.listings {
      ElsewhereAddsNoKey(s.ledger, other, CompensationMove(id, s.listings[id]).Key());
    }
  }

  lemma ElsewhereKeepsKeys(s: Shop, other: Runs.Op)
    requires KeysOk(s) && NotMarket(other) && Theorems.Extends(s.ledger, Runs.Step(s.ledger, other))
    ensures KeysOk(s.(ledger := Runs.Step(s.ledger, other)))
  {
    var t := s.(ledger := Runs.Step(s.ledger, other));
    forall k: Key | MarketReason(k.reason)
      ensures (k in t.ledger.applied <==> k in s.ledger.applied) && (Justified(t, k) <==> Justified(s, k))
    {
      SameStateJustifies(s, t, k);
      ElsewhereAddsNoKey(s.ledger, other, k);
    }
  }

  ghost predicate SameState(s: Shop, t: Shop) { t == s.(ledger := t.ledger) }

  lemma SameStateJustifies(s: Shop, t: Shop, k: Key)
    requires SameState(s, t)
    ensures Justified(s, k) <==> Justified(t, k)
  {
  }

  // All operations.

  lemma QuietOpKeepsBooks(s: Shop, op: Op)
    requires Books(s) && OwnedOk(s)
    requires op.DoUnpublish? || op.DoDelete? || op.DoLike? || op.DoUnlike?
    ensures Books(Step(s, op).0)
  {
    var t := Step(s, op).0;
    if t != s {
      if op.DoUnpublish? || op.DoDelete? {
        DownEdits(s, op);
      } else {
        LikeEdits(s, op);
      }
      DownKeepsBooks(s, t, op.id);
    }
  }

  lemma SnapshotKeepsBooks(s: Shop, id: string, snapshot: Snapshot)
    requires Books(s) && OwnedOk(s)
    ensures Books(CreateSnapshot(s, id, snapshot).0)
  {
    var t := CreateSnapshot(s, id, snapshot).0;
    assert SameAccounts(s, t);
    SameAccountsKeepBooks(s, t);
  }

  lemma KeepsBooks(s: Shop, op: Op)
    requires Books(s) && OwnedOk(s) && LogOk(s) && ValidOp(s, op)
    ensures Books(Step(s, op).0)
  {
    match op
    case DoSnapshot(id, snapshot) => SnapshotKeepsBooks(s, id, snapshot);
    case DoDraft(_, _, _, _, _, _) => DraftKeepsBooks(s, op);
    case DoPublish(id, seller, now) => PublishKeepsBooks(s, id, seller, now);
    case DoAcquire(id, buyer) => AcquireKeepsBooks(s, id, buyer);
    case DoTakedown(_, _, _) => TakedownKeepsBooks(s, op);
    case DoRestore(_, _) => RestoreKeepsBooks(s, op);
    case Elsewhere(other) => ElsewhereKeepsBooks(s, other);
    case _ => QuietOpKeepsBooks(s, op);
  }

  lemma DownKeepsBooks(s: Shop, t: Shop, id: string)
    requires Books(s) && OwnedOk(s) && Edited(s, t, id)
    requires t.owned == s.owned && t.ledger == s.ledger && t.log == s.log
    requires t.listings[id].feePaid == s.listings[id].feePaid
    ensures Books(t)
  {
    forall i ensures EverDown(s, i) <==> EverDown(t, i) { }
    EditKeepsBooks(s, t, id);
  }

  lemma StepKeepsInv(s: Shop, op: Op)
    requires Inv(s) && ValidOp(s, op)
    ensures Inv(Step(s, op).0)
  {
    KeepsListings(s, op);
    KeepsTitles(s, op);
    KeepsRelations(s, op);
    KeepsBlocks(s, op);
    KeepsLog(s, op);
    KeepsBooks(s, op);
  }

  lemma {:induction false} RunKeepsInv(s: Shop, ops: seq<Op>)
    requires Inv(s) && ValidRun(s, ops)
    ensures Inv(Run(s, ops))
    decreases |ops|
  {
    if ops != [] {
      StepKeepsInv(s, ops[0]);
      RunKeepsInv(Step(s, ops[0]).0, ops[1..]);
    }
  }
}
