/** What every run of the marketplace guarantees, and exactly when the source of
    a removed listing stays blocked. */
module MarketTheorems {
  import opened Wrappers
  import opened LedgerModel
  import opened LedgerInvariant
  import opened StagedMoves
  import opened MarketModel
  import opened MarketInvariant
  import opened MarketBooks
  import opened MarketTakedowns
  import Runs = LedgerRuns
  import Theorems = LedgerTheorems

  /** The marketplace after `ops`, from nothing. */
  function After(ops: seq<Op>): Shop { Run(EMPTY_SHOP, ops) }

  predicate Valid(ops: seq<Op>) { ValidRun(EMPTY_SHOP, ops) }

  lemma AfterInv(ops: seq<Op>)
    requires Valid(ops)
    ensures Inv(After(ops))
  {
    EmptyInv();
    RunKeepsInv(EMPTY_SHOP, ops);
  }

  // Economy.

  /** Exactly those listings were compensated that a takedown whose seller was told
      took down; they were down, and without lost notifications they are all that
      ever were. */
  lemma CompensationsAreExact(ops: seq<Op>)
    requires Valid(ops)
    ensures var s := After(ops);
            && (forall id :: Compensated(s, id) <==> EverPays(EMPTY_SHOP, ops, id))
            && PaidBack(s) <= TakenDown(s)
            && (AllNotified(ops) ==> PaidBack(s) == TakenDown(s))
  {
    AfterInv(ops);
    EmptyInv();
    forall id ensures Compensated(After(ops), id) <==> EverPays(EMPTY_SHOP, ops, id) {
      RunCompensates(EMPTY_SHOP, ops, id);
    }
    PaidBackAreDown(After(ops));
    if AllNotified(ops) {
      NotifiedRunsCompensate(EMPTY_SHOP, ops);
    }
  }

  /** The marketplace creates and destroys shards in two ways only: one fee per
      listing ever published and one compensation per listing ever taken down with
      its seller told - per listing ever taken down, if no notification is lost.
      Purchases only move them. */
  lemma EconomyIsClosed(ops: seq<Op>)
    requires Valid(ops)
    ensures var s := After(ops);
            && MarketSum(s.ledger.entries) == COMPENSATION * |PaidBack(s)| - FEE * |FeesPaid(s)|
            && (forall id :: id in PaidBack(s) <==> EverPays(EMPTY_SHOP, ops, id))
            && (AllNotified(ops) ==>
                  MarketSum(s.ledger.entries) == COMPENSATION * |TakenDown(s)| - FEE * |FeesPaid(s)|)
  {
    AfterInv(ops);
    CompensationsAreExact(ops);
    forall id ensures id in PaidBack(After(ops)) <==> EverPays(EMPTY_SHOP, ops, id) {
      assert Compensated(After(ops), id) <==> EverPays(EMPTY_SHOP, ops, id);
    }
  }

  predicate OnlyMarket(ops: seq<Op>) { forall op :: op in ops ==> !op.Elsewhere? }

  ghost predicate AllMarket(es: seq<Entry>) { forall e :: e in es ==> MarketReason(e.reason) }

  lemma LandedAddsMarketEntry(l: Ledger, m: Move)
    requires Stage(l, {}, m).Success? && MarketReason(m.reason) && AllMarket(l.entries)
    ensures AllMarket(Landed(l, Stage(l, {}, m).value).entries)
  {
  }

  /** Whatever an operation does to the ledger is one of the marketplace's moves. */
  lemma LedgerSteps(s: Shop, op: Op)
    requires !op.Elsewhere? && !op.DoAcquire? && Step(s, op).0.ledger != s.ledger
    ensures (op.DoPublish? || op.DoTakedown?) && op.id in s.listings
    ensures var x := s.listings[op.id];
            var m := if op.DoPublish? then FeeMove(op.id, x) else CompensationMove(op.id, x);
            Stage(s.ledger, {}, m).Success? && Step(s, op).0.ledger == Landed(s.ledger, Stage(s.ledger, {}, m).value)
  {
    if op.DoPublish? {
      PublishEdits(s, op.id, op.seller, op.now);
    } else if op.DoUnpublish? || op.DoDelete? {
      DownEdits(s, op);
    }
  }

  lemma StepAddsMarketEntries(s: Shop, op: Op)
    requires Inv(s) && !op.Elsewhere? && AllMarket(s.ledger.entries)
    ensures AllMarket(Step(s, op).0.ledger.entries)
  {
    if Step(s, op).0.ledger != s.ledger {
      if op.DoAcquire? {
        AcquireEdits(s, op.id, op.buyer);
        PurchaseIsFresh(s, Pair(op.buyer, op.id));
        PaidAddsMarketEntries(s.ledger, Pair(op.buyer, op.id), s.listings[op.id]);
      } else {
        LedgerSteps(s, op);
        var x := s.listings[op.id];
        LandedAddsMarketEntry(s.ledger, if op.DoPublish? then FeeMove(op.id, x) else CompensationMove(op.id, x));
      }
    }
  }

  lemma PaidAddsMarketEntries(l: Ledger, p: Pair, x: Listing)
    requires x.seller != p.user && Paid(l, p, x).Success? && AllMarket(l.entries)
    requires PurchaseMove(p, x).Key() !in l.applied && SaleMove(p, x).Key() !in l.applied
    ensures AllMarket(Paid(l, p, x).value.entries)
  {
    if x.price > 0 {
      PaidIsTwoMoves(l, p, x);
    }
  }

  lemma {:induction false} RunAddsMarketEntries(s: Shop, ops: seq<Op>)
    requires Inv(s) && ValidRun(s, ops) && OnlyMarket(ops) && AllMarket(s.ledger.entries)
    ensures AllMarket(Run(s, ops).ledger.entries)
    decreases |ops|
  {
    if ops != [] {
      assert ops[0] in ops && forall op :: op in ops[1..] ==> op in ops;
      StepAddsMarketEntries(s, ops[0]);
      StepKeepsInv(s, ops[0]);
      RunAddsMarketEntries(Step(s, ops[0]).0, ops[1..]);
    }
  }

  lemma {:induction false} AllMarketTotal(es: seq<Entry>)
    requires AllMarket(es)
    ensures OtherSum(es) == 0
  {
    if es != [] {
      assert es[|es| - 1] in es && forall e :: e in es[..|es| - 1] ==> e in es;
      AllMarketTotal(es[..|es| - 1]);
    }
  }

  /** What everything but the marketplace did to the number of shards. */
  function OtherSum(es: seq<Entry>): int {
    if es == [] then 0
    else OtherSum(es[..|es| - 1]) + if MarketReason(es[|es| - 1].reason) then 0 else es[|es| - 1].delta
  }

  lemma {:induction false} TotalIsSplit(es: seq<Entry>)
    ensures Theorems.TotalOf(es) == MarketSum(es) + OtherSum(es)
  {
    if es != [] {
      TotalIsSplit(es[..|es| - 1]);
    }
  }

  /** Whatever else moves shards, all balances together are what came from outside
      the marketplace, and the compensations paid, less the fees taken. */
  lemma BalancesAreAccounted(ops: seq<Op>, users: seq<string>)
    requires Valid(ops) && Theorems.Distinct(users)
    requires forall e :: e in After(ops).ledger.entries ==> e.user in users
    ensures var s := After(ops);
            var outside := OtherSum(s.ledger.entries);
            var balances := Theorems.BalancesOf(s.ledger, users);
            && balances == COMPENSATION * |PaidBack(s)| - FEE * |FeesPaid(s)| + outside
            && (AllNotified(ops) ==> balances == COMPENSATION * |TakenDown(s)| - FEE * |FeesPaid(s)| + outside)
  {
    var s := After(ops);
    AfterInv(ops);
    CompensationsAreExact(ops);
    TotalIsSplit(s.ledger.entries);
    assert Core(s.ledger) by { assert Runs.Sound(s.ledger); }
    Theorems.BalancesAddUpToLedger(s.ledger, users);
  }

  /** With nothing but the marketplace running, all balances together are the
      compensations paid less the fees taken. */
  lemma BalancesFollowFees(ops: seq<Op>, users: seq<string>)
    requires Valid(ops) && OnlyMarket(ops) && Theorems.Distinct(users)
    requires forall e :: e in After(ops).ledger.entries ==> e.user in users
    ensures var s := After(ops);
            var balances := Theorems.BalancesOf(s.ledger, users);
            && balances == COMPENSATION * |PaidBack(s)| - FEE * |FeesPaid(s)|
            && (AllNotified(ops) ==> balances == COMPENSATION * |TakenDown(s)| - FEE * |FeesPaid(s)|)
  {
    EmptyInv();
    RunAddsMarketEntries(EMPTY_SHOP, ops);
    AllMarketTotal(After(ops).ledger.entries);
    BalancesAreAccounted(ops, users);
  }

  /** A purchase moves exactly the price from buyer to seller and touches no other
      wallet; the buyer gets the ownership and the seller the notice with it. */
  lemma PurchaseIsExact(s: Shop, id: string, buyer: string, user: string)
    requires Inv(s) && Acquire(s, id, buyer).1 == Success(true)
    ensures var t, p := Acquire(s, id, buyer).0, Pair(buyer, id);
            && id in s.listings && p !in s.owned && p in t.owned && p in t.sales
            && var x := s.listings[id];
               && x.seller != buyer
               && WalletOf(t.ledger, buyer).balance == WalletOf(s.ledger, buyer).balance - x.price
               && WalletOf(t.ledger, x.seller).balance == WalletOf(s.ledger, x.seller).balance + x.price
               && (user != buyer && user != x.seller ==> WalletOf(t.ledger, user) == WalletOf(s.ledger, user))
               && t.owned[p] == Ownership(x.seller, x.snapshot, x.price)
               && t.sales[p] == Sale(x.seller, x.price)
  {
    var p := Pair(buyer, id);
    AcquireChanges(s, id, buyer);
    AcquireEdits(s, id, buyer);
    PurchaseIsFresh(s, p);
    assert 0 <= s.listings[id].price;
    PaidMovesPrice(s.ledger, p, s.listings[id], user);
  }

  lemma AcquireChanges(s: Shop, id: string, buyer: string)
    requires Acquire(s, id, buyer).1 == Success(true)
    ensures Acquire(s, id, buyer).0 != s && id in s.listings
  {
    var t, p := Acquire(s, id, buyer).0, Pair(buyer, id);
    assert p !in s.owned && p in t.owned;
  }

  lemma PaidMovesPrice(l: Ledger, p: Pair, x: Listing, user: string)
    requires x.seller != p.user && x.price >= 0 && Paid(l, p, x).Success?
    requires PurchaseMove(p, x).Key() !in l.applied && SaleMove(p, x).Key() !in l.applied
    ensures var m := Paid(l, p, x).value;
            && WalletOf(m, p.user).balance == WalletOf(l, p.user).balance - x.price
            && WalletOf(m, x.seller).balance == WalletOf(l, x.seller).balance + x.price
            && (user != p.user && user != x.seller ==> WalletOf(m, user) == WalletOf(l, user))
  {
    if x.price > 0 {
      PaidIsTwoMoves(l, p, x);
    }
  }

  /** A purchase is refused by the ledger only for want of shards. In particular
      `WalletAlreadyChanged` does not occur. */
  lemma OnlyPovertyStopsAPurchase(s: Shop, id: string, buyer: string)
    requires Inv(s) && Acquire(s, id, buyer).1.Failure? && Acquire(s, id, buyer).1.error.Shards?
    ensures id in s.listings && Acquire(s, id, buyer) == (s, Failure(Shards(InsufficientShards)))
    ensures WalletOf(s.ledger, buyer).balance < s.listings[id].price
  {
    var p, x := Pair(buyer, id), s.listings[id];
    PurchaseIsFresh(s, p);
    assert 0 <= x.price;
    assert WalletOf(s.ledger, x.seller).balance >= 0 by { assert Core(s.ledger); }
    OnlyPovertyStopsPayment(s.ledger, p, x);
  }

  lemma OnlyPovertyStopsPayment(l: Ledger, p: Pair, x: Listing)
    requires x.seller != p.user && x.price >= 0 && WalletOf(l, x.seller).balance >= 0
    requires PurchaseMove(p, x).Key() !in l.applied && SaleMove(p, x).Key() !in l.applied
    ensures Paid(l, p, x).Failure? ==> Paid(l, p, x).error.InsufficientShards? && WalletOf(l, p.user).balance < x.price
  {
  }

  /** Likewise for publication, and a takedown is never refused by the ledger. */
  lemma OnlyPovertyStopsPublication(s: Shop, id: string, seller: string, now: int)
    requires Inv(s) && Publish(s, id, seller, now).1.Failure? && Publish(s, id, seller, now).1.error.Shards?
    ensures Publish(s, id, seller, now) == (s, Failure(Shards(InsufficientShards)))
    ensures id in s.listings && !s.listings[id].feePaid && WalletOf(s.ledger, seller).balance < FEE
  {
    RefusedPublication(s, id, seller, now);
  }

  lemma RefusedPublication(s: Shop, id: string, seller: string, now: int)
    requires Publish(s, id, seller, now).1.Failure? && Publish(s, id, seller, now).1.error.Shards?
    ensures Mine(s, id, seller) && !s.listings[id].feePaid
    ensures Publish(s, id, seller, now) == (s, Failure(Shards(InsufficientShards)))
    ensures WalletOf(s.ledger, seller).balance < FEE
  {
  }

  lemma TakedownsAlwaysSucceed(s: Shop, id: string, actor: string)
    requires Inv(s) && id in s.listings
    ensures Takedown(s, id, actor).1.Success? && id in Takedown(s, id, actor).0.listings
    ensures Takedown(s, id, actor).0.listings[id].moderation.Removed?
  {
    SellersHaveWallets(s, id);
    if !s.listings[id].moderation.Removed? { TakedownPays(s, id, actor); }
  }

  lemma KeysOfSoundLedger(l: Ledger, k: Key)
    requires Runs.Sound(l)
    ensures Occurrences(l.entries, k) == if k in l.applied then 1 else 0
  {
    assert Core(l);
    KeyLabelsOneEntry(l, k);
  }

  /** Which charges of a listing are in the ledger. */
  lemma ChargesAreDue(s: Shop, id: string, buyer: string)
    requires KeysOk(s) && id in s.listings
    ensures var x, p := s.listings[id], Pair(buyer, id);
            && (FeeMove(id, x).Key() in s.ledger.applied <==> x.feePaid)
            && (PurchaseMove(p, x).Key() in s.ledger.applied <==> p in s.owned && x.price > 0)
            && (SaleMove(p, x).Key() in s.ledger.applied <==> p in s.owned && x.price > 0)
  {
    var x, p := s.listings[id], Pair(buyer, id);
    assert Justified(s, FeeMove(id, x).Key()) <==> x.feePaid;
    assert Justified(s, PurchaseMove(p, x).Key()) <==> p in s.owned && x.price > 0;
    assert Justified(s, SaleMove(p, x).Key()) <==> p in s.owned && x.price > 0;
  }

  /** Each charge happens exactly once: the fee for a listing that was published,
      the compensation for one that was ever taken down with its seller told - ever
      taken down, if no notification is lost - and the two sides of the price for
      every ownership that was not free. */
  lemma ChargesHappenOnce(ops: seq<Op>, id: string, buyer: string)
    requires Valid(ops) && id in After(ops).listings
    ensures var s := After(ops);
            var x, p, es := s.listings[id], Pair(buyer, id), s.ledger.entries;
            && Occurrences(es, FeeMove(id, x).Key()) == (if x.feePaid then 1 else 0)
            && Occurrences(es, CompensationMove(id, x).Key()) == (if EverPays(EMPTY_SHOP, ops, id) then 1 else 0)
            && (AllNotified(ops) ==> (EverPays(EMPTY_SHOP, ops, id) <==> EverDown(s, id)))
            && Occurrences(es, PurchaseMove(p, x).Key()) == (if p in s.owned && x.price > 0 then 1 else 0)
            && Occurrences(es, SaleMove(p, x).Key()) == (if p in s.owned && x.price > 0 then 1 else 0)
  {
    AfterInv(ops);
    CompensationsAreExact(ops);
    var s := After(ops);
    var x, p := s.listings[id], Pair(buyer, id);
    ChargesAreDue(s, id, buyer);
    assert Compensated(s, id) <==> EverPays(EMPTY_SHOP, ops, id);
    assert AllNotified(ops) ==> (id in PaidBack(s) <==> id in TakenDown(s));
    KeysOfSoundLedger(s.ledger, FeeMove(id, x).Key());
    KeysOfSoundLedger(s.ledger, CompensationMove(id, x).Key());
    KeysOfSoundLedger(s.ledger, PurchaseMove(p, x).Key());
    KeysOfSoundLedger(s.ledger, SaleMove(p, x).Key());
  }

  // Indexes and counters.

  /** No two published listings go by the same name. */
  lemma PublishedTitlesAreUnique(ops: seq<Op>, a: string, b: string)
    requires Valid(ops) && a in After(ops).listings && b in After(ops).listings
    requires After(ops).listings[a].status.Published? && After(ops).listings[b].status.Published?
    requires After(ops).listings[a].title == After(ops).listings[b].title
    ensures a == b
  {
    AfterInv(ops);
  }

  /** A name is claimed exactly by the published listing that bears it. */
  lemma TitleClaimsAreExact(ops: seq<Op>, key: string, id: string)
    requires Valid(ops)
    ensures var s := After(ops);
            (key in s.titles && s.titles[key] == id) <==>
              (id in s.listings && s.listings[id].status.Published? && s.listings[id].title == key)
  {
    AfterInv(ops);
  }

  /** Downloads and likes are the numbers of ownerships and likes there are. */
  lemma CountersAreExact(ops: seq<Op>, id: string)
    requires Valid(ops) && id in After(ops).listings
    ensures var s := After(ops);
            s.listings[id].downloads == |On(s.owned.Keys, id)| && s.listings[id].likes == |On(s.likes, id)|
  {
    AfterInv(ops);
  }

  /** `LikeCountInconsistent` is unreachable. */
  lemma LikesNeverDisagree(ops: seq<Op>, id: string, user: string)
    requires Valid(ops)
    ensures Like(After(ops), id, user).1 != Failure(LikeCountInconsistent)
    ensures Unlike(After(ops), id, user).1 != Failure(LikeCountInconsistent)
  {
    AfterInv(ops);
    var s := After(ops);
    if id in s.listings && Pair(user, id) in s.likes {
      assert Pair(user, id) in On(s.likes, id);
    }
  }

  // How listings change over time.

  /** Identity is fixed, DELETED is final, a paid fee stays paid, the first
      publication time is never overwritten and downloads never go down. */
  predicate Evolves(x: Listing, y: Listing) {
    && SameIdentity(x, y)
    && (x.status.Deleted? ==> y.status.Deleted?)
    && (x.feePaid ==> y.feePaid)
    && (x.publishedAt.Some? ==> y.publishedAt == x.publishedAt)
    && x.downloads <= y.downloads
  }

  ghost predicate AllEvolve(s: Shop, t: Shop) {
    && (forall id :: id in s.listings ==> id in t.listings && Evolves(s.listings[id], t.listings[id]))
    && (forall p :: p in s.owned ==> p in t.owned && t.owned[p] == s.owned[p])
    && (forall i :: i in s.snapshots ==> i in t.snapshots && t.snapshots[i] == s.snapshots[i])
  }

  lemma StepEvolves(s: Shop, op: Op)
    requires ValidOp(s, op)
    ensures AllEvolve(s, Step(s, op).0)
  {
    if Step(s, op).0 != s {
      if SellerOp(op) {
        SellerEdits(s, op);
        SellerAxis(s, op);
      } else if op.DoAcquire? {
        AcquireEdits(s, op.id, op.buyer);
      } else if BuyerOp(op) {
        LikeEdits(s, op);
      } else if OperatorOp(op) {
        OperatorEdits(s, op);
      } else if op.DoDraft? {
        DraftAdds(s, op);
      }
    }
  }

  lemma EvolvingIsTransitive(s: Shop, t: Shop, u: Shop)
    requires AllEvolve(s, t) && AllEvolve(t, u)
    ensures AllEvolve(s, u)
  {
  }

  lemma {:induction false} RunEvolves(s: Shop, ops: seq<Op>)
    requires ValidRun(s, ops)
    ensures AllEvolve(s, Run(s, ops))
    decreases |ops|
  {
    if ops != [] {
      var t := Step(s, ops[0]).0;
      StepEvolves(s, ops[0]);
      RunEvolves(t, ops[1..]);
      EvolvingIsTransitive(s, t, Run(s, ops));
    }
  }

  /** Whoever owns a listing can have its original for ever: no operation of the
      seller, of an operator or of anybody else takes the ownership away or makes
      `template` answer its owner differently. */
  lemma OwnersKeepTheirCopy(ops: seq<Op>, later: seq<Op>, p: Pair)
    requires Valid(ops) && ValidRun(After(ops), later) && p in After(ops).owned
    ensures var s, t := After(ops), Run(After(ops), later);
            && p in t.owned && t.owned[p] == s.owned[p]
            && Template(t, p.listing, p.user) == Template(s, p.listing, p.user)
            && s.owned[p].snapshot in s.snapshots
            && (s.snapshots[s.owned[p].snapshot].complete ==>
                  Template(t, p.listing, p.user) == Success(s.owned[p].snapshot))
  {
    AfterInv(ops);
    RunEvolves(After(ops), later);
    var s, t := After(ops), Run(After(ops), later);
    assert p.listing in s.listings && p.listing in t.listings;
  }

  // Moderation.

  predicate NoOperator(ops: seq<Op>) { forall op :: op in ops ==> !OperatorOp(op) }

  lemma StepKeepsModeration(s: Shop, op: Op)
    requires !OperatorOp(op) && ValidOp(s, op)
    ensures ModerationUntouched(s, Step(s, op).0)
  {
    if SellerOp(op) {
      SellerFrame(s, op);
    } else if BuyerOp(op) {
      BuyerFrame(s, op);
    } else if op.DoDraft? && Step(s, op).0 != s {
      DraftAdds(s, op);
    }
  }

  /** Without an operator nothing changes on the moderation axis: no status, no
      block and no line of the log. */
  lemma {:induction false} OnlyOperatorsModerate(s: Shop, ops: seq<Op>)
    requires ValidRun(s, ops) && NoOperator(ops)
    ensures ModerationUntouched(s, Run(s, ops))
    decreases |ops|
  {
    if ops != [] {
      var t := Step(s, ops[0]).0;
      assert ops[0] in ops && forall op :: op in ops[1..] ==> op in ops;
      StepKeepsModeration(s, ops[0]);
      StepEvolves(s, ops[0]);
      OnlyOperatorsModerate(t, ops[1..]);
    }
  }

  /** The log and the status tell the same story, and the log takes turns. */
  lemma LogAgreesWithStatus(ops: seq<Op>, id: string)
    requires Valid(ops) && id in After(ops).listings
    ensures Alternates(After(ops).log)
    ensures After(ops).listings[id].moderation.Removed? <==> LastAction(After(ops).log, id) == Some(TookDown)
  {
    AfterInv(ops);
  }

  /** A block belongs to a listing that is down now and was made from that source. */
  lemma BlockOwnersAreRemoved(ops: seq<Op>, b: BlockId)
    requires Valid(ops) && b in After(ops).blocks
    ensures var s := After(ops);
            && s.blocks[b] in s.listings && s.listings[s.blocks[b]].moderation.Removed?
            && BlockOf(s, s.listings[s.blocks[b]]) == Some(b)
  {
    AfterInv(ops);
  }

  /** A listing enters PUBLISHED only by its seller's own publication, never while
      it is removed or deleted, and never while its source is blocked. */
  lemma BlockedSourcesStayDown(s: Shop, op: Op, id: string)
    requires ValidOp(s, op) && id in s.listings && !s.listings[id].status.Published?
    requires id in Step(s, op).0.listings && Step(s, op).0.listings[id].status.Published?
    ensures op.DoPublish? && op.id == id && op.seller == s.listings[id].seller
    ensures !s.listings[id].moderation.Removed? && !s.listings[id].status.Deleted?
    ensures BlockOf(s, s.listings[id]).Some? ==>
              BlockOf(s, s.listings[id]).value !in s.blocks && BlockOf(s, s.listings[id]).value !in Step(s, op).0.blocks
  {
    var t := Step(s, op).0;
    if BuyerOp(op) {
      BuyerFrame(s, op);
    } else if OperatorOp(op) {
      OperatorFrame(s, op);
    } else if SellerOp(op) {
      SellerEdits(s, op);
      if op.DoPublish? {
        PublishEdits(s, op.id, op.seller, op.now);
      } else {
        DownEdits(s, op);
      }
    } else if op.DoDraft? {
      DraftAdds(s, op);
    }
  }

  // The source of a removed listing.

  /** Every removed listing whose source is known has that source blocked. */
  ghost predicate Covered(s: Shop) {
    forall id :: id in s.listings && s.listings[id].moderation.Removed? && BlockOf(s, s.listings[id]).Some? ==>
      BlockOf(s, s.listings[id]).value in s.blocks
  }

  /** The restore that lifts a block another removed listing still needs: the
      block names the restored listing, because that one was taken down last. */
  ghost predicate LiftsSharedBlock(s: Shop, op: Op) {
    && op.DoRestore? && op.id in s.listings
    && var x := s.listings[op.id];
       && x.moderation.Removed? && !x.status.Deleted?
       && BlockOf(s, x).Some? && BlockOf(s, x).value in s.blocks && s.blocks[BlockOf(s, x).value] == op.id
       && exists other :: other in s.listings && other != op.id && s.listings[other].moderation.Removed?
                          && BlockOf(s, s.listings[other]) == BlockOf(s, x)
  }

  lemma QuietStepsKeepCover(s: Shop, op: Op)
    requires ListingsOk(s) && Covered(s) && ValidOp(s, op) && !OperatorOp(op)
    ensures Covered(Step(s, op).0)
  {
    var t := Step(s, op).0;
    StepKeepsModeration(s, op);
    StepEvolves(s, op);
    forall id | id in t.listings && t.listings[id].moderation.Removed? && BlockOf(t, t.listings[id]).Some?
      ensures BlockOf(t, t.listings[id]).value in t.blocks
    {
      if id in s.listings {
        assert BlockOf(t, t.listings[id]) == BlockOf(s, s.listings[id]);
      } else {
        assert op.DoDraft? && t != s by { NewListings(s, op, id); }
        DraftAdds(s, op);
        assert false;
      }
    }
  }

  lemma NewListings(s: Shop, op: Op, id: string)
    requires id !in s.listings && id in Step(s, op).0.listings
    ensures op.DoDraft? && op.id == id
  {
    if SellerOp(op) {
      SellerFrame(s, op);
    } else if BuyerOp(op) {
      BuyerFrame(s, op);
    } else if OperatorOp(op) {
      OperatorFrame(s, op);
    }
  }

  lemma TakedownKeepsCover(s: Shop, op: Op)
    requires Covered(s) && op.DoTakedown?
    ensures Covered(Step(s, op).0)
  {
    var t := Step(s, op).0;
    if t != s {
      OperatorEdits(s, op);
      TakedownBlocks(s, op);
    }
  }

  lemma TakedownBlocks(s: Shop, op: Op)
    requires op.DoTakedown? && Step(s, op).0 != s
    ensures op.id in s.listings
    ensures var b := BlockOf(s, s.listings[op.id]);
            Step(s, op).0.blocks == if b.Some? then s.blocks[b.value := op.id] else s.blocks
  {
  }

  lemma RestoreUnblocks(s: Shop, op: Op)
    requires op.DoRestore? && Step(s, op).0 != s
    ensures op.id in s.listings && s.listings[op.id].moderation.Removed? && !s.listings[op.id].status.Deleted?
    ensures Step(s, op).0.blocks == Unblocked(s, op.id, s.listings[op.id])
  {
  }

  lemma RestoreCover(s: Shop, op: Op)
    requires Covered(s) && op.DoRestore?
    ensures Covered(Step(s, op).0) <==> !LiftsSharedBlock(s, op)
  {
    var t := Step(s, op).0;
    if t == s {
      assert !LiftsSharedBlock(s, op);
    } else {
      OperatorEdits(s, op);
      RestoreUnblocks(s, op);
      if LiftsSharedBlock(s, op) {
        var other :| other in s.listings && other != op.id && s.listings[other].moderation.Removed?
                     && BlockOf(s, s.listings[other]) == BlockOf(s, s.listings[op.id]);
        assert t.listings[other] == s.listings[other];
        assert BlockOf(t, t.listings[other]).value !in t.blocks;
      } else {
        forall id | id in t.listings && t.listings[id].moderation.Removed? && BlockOf(t, t.listings[id]).Some?
          ensures BlockOf(t, t.listings[id]).value in t.blocks
        {
          assert id != op.id && t.listings[id] == s.listings[id];
          assert BlockOf(t, t.listings[id]) == BlockOf(s, s.listings[id]);
        }
      }
    }
  }

  /** Removed listings keep their sources blocked under every operation except
      one: restoring the listing a shared block is named after. */
  lemma CoverIsLostExactlyThere(s: Shop, op: Op)
    requires Inv(s) && Covered(s) && ValidOp(s, op)
    ensures Covered(Step(s, op).0) <==> !LiftsSharedBlock(s, op)
  {
    if op.DoRestore? {
      RestoreCover(s, op);
    } else if op.DoTakedown? {
      TakedownKeepsCover(s, op);
    } else {
      QuietStepsKeepCover(s, op);
    }
  }
}
