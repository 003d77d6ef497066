/** What each marketplace operation answers and does, told by the fields of the
    listing, the relations and the wallets that the caller could look at before. */
module MarketAnswers {
  import opened Wrappers
  import opened LedgerModel
  import opened MarketModel
  import opened StagedMoves
  import opened MarketInvariant
  import opened MarketBooks
  import opened LedgerAnswers
  import Runs = LedgerRuns

  function Balance(s: Shop, user: string): int { WalletOf(s.ledger, user).balance }

  /** What anybody can see: published, with its date, and not taken down. */
  predicate Visible(s: Shop, id: string) {
    id in s.listings && s.listings[id].status == Published && s.listings[id].publishedAt != None
    && s.listings[id].moderation == Active
  }

  /** The wallet side of one movement: an entry of this user, or nothing at all. */
  ghost predicate Pays(s: Shop, t: Shop, user: string, amount: int, reason: ShardReason, event: Event) {
    Booked(s.ledger, t.ledger, user, -amount, reason, Some(Key(user, reason, event)),
           Spending(WalletOf(s.ledger, user), amount))
  }

  ghost predicate Receives(s: Shop, t: Shop, user: string, amount: int, reason: ShardReason, event: Event) {
    Booked(s.ledger, t.ledger, user, amount, reason, Some(Key(user, reason, event)),
           Earning(WalletOf(s.ledger, user), amount))
  }

  lemma InvFacts(s: Shop, id: string)
    requires Inv(s) && id in s.listings
    ensures var x := s.listings[id];
            && 0 <= x.price < 1000 && 0 <= x.likes
            && x.snapshot in s.snapshots && s.snapshots[x.snapshot].seller == x.seller
            && (x.title in s.titles <==>
                  exists o :: o in s.listings && s.listings[o].status == Published && s.listings[o].title == x.title)
            && (x.title in s.titles && s.titles[x.title] == id <==> x.status == Published)
            && (FeeMove(id, x).Key() in s.ledger.applied <==> x.feePaid)
    ensures forall u :: Balance(s, u) >= 0
  {
    var x := s.listings[id];
    assert ListingsOk(s) && TitlesOk(s) && LikesOk(s) && KeysOk(s);
    assert Justified(s, FeeMove(id, x).Key()) <==> x.feePaid;
    forall u ensures Balance(s, u) >= 0 { assert Runs.Sound(s.ledger); }
  }

  // Sellers.

  predicate IsSellers(s: Shop, id: string, seller: string) { id in s.listings && s.listings[id].seller == seller }

  /** The source of the listing is known and blocked. */
  predicate SourceBlocked(s: Shop, x: Listing) {
    x.snapshot in s.snapshots && s.snapshots[x.snapshot].source != ""
    && BlockId(x.seller, x.contentType, s.snapshots[x.snapshot].source) in s.blocks
  }

  /** Another published listing has the name. */
  ghost predicate NameTaken(s: Shop, id: string, x: Listing) {
    exists o :: o in s.listings && o != id && s.listings[o].status == Published && s.listings[o].title == x.title
  }

  /** May the seller publish this listing now, but for the fee? */
  ghost predicate MayGoUp(s: Shop, id: string) {
    && id in s.listings && s.listings[id].status in {Draft, Unlisted} && s.listings[id].moderation == Active
    && !SourceBlocked(s, s.listings[id]) && !NameTaken(s, id, s.listings[id])
  }

  function FeeReasonOf(x: Listing): ShardReason {
    match x.contentType case Mirror => MirrorPublishFee case Sticker => StickerPublishFee
  }

  lemma PublishTable(s: Shop, id: string, seller: string, now: int)
    requires IsSellers(s, id, seller) && Balance(s, seller) >= 0
    requires var x := s.listings[id];
             && x.snapshot in s.snapshots && s.snapshots[x.snapshot].seller == x.seller
             && (FeeMove(id, x).Key() in s.ledger.applied <==> x.feePaid)
    ensures var x := s.listings[id];
            var (t, r) := Publish(s, id, seller, now);
            if x.status == Deleted then (t, r) == (s, Failure(InvalidTransition))
            else if x.moderation == Removed then (t, r) == (s, Failure(ModeratedListing))
            else if x.status == Published then (t, r) == (s, Success(false))
            else if SourceBlocked(s, x) then (t, r) == (s, Failure(ModeratedListing))
            else if x.title in s.titles && s.titles[x.title] != id then (t, r) == (s, Failure(TitleTaken))
            else if !x.feePaid && Balance(s, seller) < 10 then (t, r) == (s, Failure(Shards(InsufficientShards)))
            else r == Success(true) && WentUp(s, t, id, now)
  {
  }

  function FirstTime(x: Listing, now: int): int { if x.publishedAt == None then now else x.publishedAt.value }

  /** Everything that a publication changes. */
  ghost predicate WentUp(s: Shop, t: Shop, id: string, now: int)
    requires id in s.listings
  {
    var x := s.listings[id];
    && t == s.(listings := t.listings, titles := t.titles, ledger := t.ledger)
    && t.listings == s.listings[id := x.(status := Published, feePaid := true, publishedAt := Some(FirstTime(x, now)))]
    && t.titles == s.titles[x.title := id]
    && (x.feePaid ==> t.ledger == s.ledger)
    && (!x.feePaid ==> Pays(s, t, x.seller, 10, FeeReasonOf(x), Named(id)))
  }

  /** When a publication happens, when it is refused and why, and what it costs. */
  lemma PublishAnswers(s: Shop, id: string, seller: string, now: int)
    requires Inv(s)
    ensures var (t, r) := Publish(s, id, seller, now);
            && (r == Failure(ListingNotFound) <==> !IsSellers(s, id, seller))
            && (if r == Success(true) then IsSellers(s, id, seller) && WentUp(s, t, id, now) else t == s)
            && (IsSellers(s, id, seller) ==> PublishesWhen(s, id, seller, r))
  {
    if IsSellers(s, id, seller) {
      InvFacts(s, id);
      NameIsClaimed(s, id);
      PublishCases(s, id, seller, now);
    }
  }

  lemma PublishCases(s: Shop, id: string, seller: string, now: int)
    requires IsSellers(s, id, seller) && Balance(s, seller) >= 0
    requires var x := s.listings[id];
             && x.snapshot in s.snapshots && s.snapshots[x.snapshot].seller == x.seller
             && (FeeMove(id, x).Key() in s.ledger.applied <==> x.feePaid)
             && (NameTaken(s, id, x) <==> x.title in s.titles && s.titles[x.title] != id)
    ensures var (t, r) := Publish(s, id, seller, now);
            && r != Failure(ListingNotFound) && PublishesWhen(s, id, seller, r)
            && if r == Success(true) then WentUp(s, t, id, now) else t == s
  {
    PublishTable(s, id, seller, now);
  }

  /** What the answer to the seller says. */
  ghost predicate PublishesWhen(s: Shop, id: string, seller: string, r: Answer)
    requires id in s.listings
  {
    var x := s.listings[id];
    && (r == Success(true) <==> MayGoUp(s, id) && (x.feePaid || Balance(s, seller) >= 10))
    && (r == Failure(Shards(InsufficientShards)) <==> MayGoUp(s, id) && !x.feePaid && Balance(s, seller) < 10)
    && (r == Failure(InvalidTransition) <==> x.status == Deleted)
    && (r == Success(false) <==> x.status == Published && x.moderation == Active)
    && (r == Failure(ModeratedListing) <==>
          x.status != Deleted && (x.moderation == Removed || (x.status != Published && SourceBlocked(s, x))))
    && (r == Failure(TitleTaken) <==>
          && x.status in {Draft, Unlisted} && x.moderation == Active && !SourceBlocked(s, x) && NameTaken(s, id, x))
  }

  /** A listing whose snapshot is missing, or is somebody else's, is refused even then. */
  lemma PublishNeedsItsSnapshot(s: Shop, id: string, seller: string, now: int)
    requires IsSellers(s, id, seller) && s.listings[id].status in {Draft, Unlisted}
    requires s.listings[id].moderation == Active
    requires s.listings[id].snapshot in s.snapshots ==> s.snapshots[s.listings[id].snapshot].seller != seller
    ensures Publish(s, id, seller, now) == (s, Failure(SnapshotNotFound))
  {
  }

  /** A snapshot is stored once and never replaced. */
  lemma SnapshotAnswers(s: Shop, id: string, snapshot: Snapshot)
    ensures var (t, r) := CreateSnapshot(s, id, snapshot);
            && (r == Success(true) <==> id !in s.snapshots)
            && (if r == Success(true) then t == s.(snapshots := s.snapshots[id := snapshot]) else t == s)
  {
  }

  lemma NameIsClaimed(s: Shop, id: string)
    requires TitlesOk(s) && id in s.listings
    ensures NameTaken(s, id, s.listings[id]) <==>
              s.listings[id].title in s.titles && s.titles[s.listings[id].title] != id
  {
  }

  /** Leaving the shop: the listing goes down and gives its name back. */
  lemma UnpublishAnswers(s: Shop, id: string, seller: string)
    requires Inv(s)
    ensures var (t, r) := Unpublish(s, id, seller);
            && (r == Failure(ListingNotFound) <==> !IsSellers(s, id, seller))
            && (r == Success(true) <==> IsSellers(s, id, seller) && s.listings[id].status == Published)
            && (r == Success(false) <==> IsSellers(s, id, seller) && s.listings[id].status != Published)
            && (if r == Success(true)
                then t == s.(listings := s.listings[id := s.listings[id].(status := Unlisted)],
                             titles := s.titles - {s.listings[id].title})
                else t == s)
  {
    if IsSellers(s, id, seller) { InvFacts(s, id); }
  }

  lemma DeleteAnswers(s: Shop, id: string, seller: string)
    requires Inv(s)
    ensures var (t, r) := Delete(s, id, seller);
            && (r == Failure(ListingNotFound) <==> !IsSellers(s, id, seller))
            && (r == Success(true) <==> IsSellers(s, id, seller) && s.listings[id].status != Deleted)
            && (r == Success(false) <==> IsSellers(s, id, seller) && s.listings[id].status == Deleted)
            && (if r == Success(true)
                then t == s.(listings := s.listings[id := s.listings[id].(status := Deleted)],
                             titles := if s.listings[id].status == Published then s.titles - {s.listings[id].title}
                                       else s.titles)
                else t == s)
  {
    if IsSellers(s, id, seller) { InvFacts(s, id); }
  }

  predicate IsDraftOf(x: Listing, seller: string, contentType: ContentType, title: string, price: int,
                      snapshot: string)
  {
    && x.seller == seller && x.contentType == contentType && x.title == title && x.price == price
    && x.snapshot == snapshot && x.status == Draft && !x.feePaid && x.publishedAt == None
    && x.downloads == 0 && x.likes == 0 && x.moderation == Active
  }

  /** A draft is made of the seller's own snapshot at a price below 1000; it is not
      published, has paid no fee and counts nothing. */
  lemma DraftAnswers(s: Shop, id: string, seller: string, contentType: ContentType, title: string, price: int,
                     snapshot: string)
    ensures var (t, r) := CreateDraft(s, id, seller, contentType, title, price, snapshot);
            var own := snapshot in s.snapshots && s.snapshots[snapshot].seller == seller;
            && (r == Failure(SnapshotNotFound) <==> !own)
            && (r == Failure(InvalidListing) <==> own && (price < 0 || price >= 1000))
            && (r == Success(true) <==> own && 0 <= price < 1000)
            && (r == Success(true) ==>
                  && id in t.listings && t == s.(listings := s.listings[id := t.listings[id]])
                  && IsDraftOf(t.listings[id], seller, contentType, title, price, snapshot))
            && (r.Failure? ==> t == s)
  {
  }

  // Buyers.

  function PurchaseReasonOf(x: Listing): ShardReason {
    match x.contentType case Mirror => MirrorPurchase case Sticker => StickerPurchase
  }

  function SaleReasonOf(x: Listing): ShardReason {
    match x.contentType case Mirror => MirrorSale case Sticker => StickerSale
  }

  /** The price went from the buyer's wallet to the seller's: two entries, two
      wallets, and no other wallet. */
  ghost predicate PriceMoved(l: Ledger, m: Ledger, id: string, x: Listing, buyer: string) {
    if x.price == 0 then m == l
    else
      && m.entries == l.entries
           + [Entry(buyer, -x.price, WalletOf(l, buyer).balance - x.price, PurchaseReasonOf(x),
                    Some(Key(buyer, PurchaseReasonOf(x), Bought(buyer, id)))),
              Entry(x.seller, x.price, WalletOf(l, x.seller).balance + x.price, SaleReasonOf(x),
                    Some(Key(x.seller, SaleReasonOf(x), Bought(buyer, id))))]
      && WalletOf(m, buyer) == Spending(WalletOf(l, buyer), x.price)
      && WalletOf(m, x.seller) == Earning(WalletOf(l, x.seller), x.price)
      && forall u :: u != buyer && u != x.seller ==> WalletOf(m, u) == WalletOf(l, u)
  }

  /** Everything that a purchase changes. */
  ghost predicate WasBought(s: Shop, t: Shop, id: string, buyer: string)
    requires id in s.listings
  {
    var x := s.listings[id];
    && t == s.(listings := t.listings, owned := t.owned, sales := t.sales, ledger := t.ledger)
    && t.listings == s.listings[id := x.(downloads := x.downloads + 1)]
    && t.owned == s.owned[Pair(buyer, id) := Ownership(x.seller, x.snapshot, x.price)]
    && t.sales == s.sales[Pair(buyer, id) := Sale(x.seller, x.price)]
    && PriceMoved(s.ledger, t.ledger, id, x, buyer)
  }

  lemma PaidTable(l: Ledger, p: Pair, x: Listing)
    requires x.seller != p.user && x.price >= 0
    requires WalletOf(l, x.seller).balance >= 0 && WalletOf(l, p.user).balance >= 0
    requires PurchaseMove(p, x).Key() !in l.applied && SaleMove(p, x).Key() !in l.applied
    ensures if WalletOf(l, p.user).balance < x.price then Paid(l, p, x) == Failure(InsufficientShards)
            else Paid(l, p, x).Success? && PriceMoved(l, Paid(l, p, x).value, p.listing, x, p.user)
  {
    if x.price > 0 && WalletOf(l, p.user).balance >= x.price {
      PaidIsTwoMoves(l, p, x);
      var m := Paid(l, p, x).value;
      assert m.entries == l.entries + [m.entries[|l.entries|], m.entries[|l.entries| + 1]];
    }
  }

  lemma AcquireTable(s: Shop, id: string, buyer: string)
    requires Visible(s, id) ==>
               && s.listings[id].price >= 0 && Balance(s, s.listings[id].seller) >= 0 && Balance(s, buyer) >= 0
               && (Pair(buyer, id) !in s.owned ==>
                     && PurchaseMove(Pair(buyer, id), s.listings[id]).Key() !in s.ledger.applied
                     && SaleMove(Pair(buyer, id), s.listings[id]).Key() !in s.ledger.applied)
    ensures var (t, r) := Acquire(s, id, buyer);
            if !Visible(s, id) then (t, r) == (s, Failure(ListingNotFound))
            else if Pair(buyer, id) in s.owned then (t, r) == (s, Success(false))
            else if s.listings[id].seller == buyer then (t, r) == (s, Failure(SelfPurchase))
            else if Balance(s, buyer) < s.listings[id].price then (t, r) == (s, Failure(Shards(InsufficientShards)))
            else r == Success(true) && WasBought(s, t, id, buyer)
  {
    if Visible(s, id) && Pair(buyer, id) !in s.owned && s.listings[id].seller != buyer {
      PaidTable(s.ledger, Pair(buyer, id), s.listings[id]);
    }
  }

  /** When a purchase happens, when it is refused and why, and what it moves. A
      listing that is a draft, unlisted, deleted or taken down cannot be bought. */
  lemma AcquireAnswers(s: Shop, id: string, buyer: string)
    requires Inv(s)
    ensures var (t, r) := Acquire(s, id, buyer);
            var open := Visible(s, id) && Pair(buyer, id) !in s.owned && s.listings[id].seller != buyer;
            && (r == Success(true) <==> open && Balance(s, buyer) >= s.listings[id].price)
            && (r == Failure(Shards(InsufficientShards)) <==> open && Balance(s, buyer) < s.listings[id].price)
            && (r == Failure(ListingNotFound) <==> !Visible(s, id))
            && (r == Success(false) <==> Visible(s, id) && Pair(buyer, id) in s.owned)
            && (r == Failure(SelfPurchase) <==>
                  Visible(s, id) && Pair(buyer, id) !in s.owned && s.listings[id].seller == buyer)
            && (if r == Success(true) then WasBought(s, t, id, buyer) else t == s)
  {
    if Visible(s, id) {
      InvFacts(s, id);
      if Pair(buyer, id) !in s.owned { PurchaseIsFresh(s, Pair(buyer, id)); }
    }
    AcquireTable(s, id, buyer);
  }

  /** Likes follow the same rule, cost nothing and need nothing. */
  lemma LikeAnswers(s: Shop, id: string, user: string)
    requires Inv(s)
    ensures var (t, r) := Like(s, id, user);
            var p := Pair(user, id);
            && (r == Failure(ListingNotFound) <==> !Visible(s, id))
            && (r == Success(false) <==> Visible(s, id) && p in s.likes)
            && (r == Failure(SelfLike) <==> Visible(s, id) && p !in s.likes && s.listings[id].seller == user)
            && (r == Success(true) <==> Visible(s, id) && p !in s.likes && s.listings[id].seller != user)
            && (if r == Success(true)
                then t == s.(listings := s.listings[id := s.listings[id].(likes := s.listings[id].likes + 1)],
                             likes := s.likes + {p})
                else t == s)
  {
    if id in s.listings {
      InvFacts(s, id);
      LikeTable(s, id, user);
    }
  }

  lemma LikeTable(s: Shop, id: string, user: string)
    requires id in s.listings && s.listings[id].likes >= 0
    ensures var (t, r) := Like(s, id, user);
            var p := Pair(user, id);
            if !Visible(s, id) then (t, r) == (s, Failure(ListingNotFound))
            else if p in s.likes then (t, r) == (s, Success(false))
            else if s.listings[id].seller == user then (t, r) == (s, Failure(SelfLike))
            else
              && r == Success(true)
              && t == s.(listings := s.listings[id := s.listings[id].(likes := s.listings[id].likes + 1)],
                         likes := s.likes + {p})
  {
  }

  /** A like can be taken back as long as the listing was ever published. */
  lemma UnlikeAnswers(s: Shop, id: string, user: string)
    requires Inv(s)
    ensures var (t, r) := Unlike(s, id, user);
            var p := Pair(user, id);
            var found := id in s.listings && s.listings[id].status != Draft;
            && (r == Failure(ListingNotFound) <==> !found)
            && (r == Success(true) <==> found && p in s.likes)
            && (r == Success(false) <==> found && p !in s.likes)
            && (if r == Success(true)
                then t == s.(listings := s.listings[id := s.listings[id].(likes := s.listings[id].likes - 1)],
                             likes := s.likes - {p})
                else t == s)
  {
    if id in s.listings {
      InvFacts(s, id);
      if Pair(user, id) in s.likes { LikedIsCounted(s, id, user); }
    }
  }

  lemma LikedIsCounted(s: Shop, id: string, user: string)
    requires LikesOk(s) && id in s.listings && Pair(user, id) in s.likes
    ensures s.listings[id].likes > 0
  {
    assert Pair(user, id) in On(s.likes, id);
  }

  /** Seller and owners get the snapshot of the listing, whatever its status. */
  lemma TemplateAnswers(s: Shop, id: string, user: string)
    requires Inv(s)
    ensures var r := Template(s, id, user);
            var may := id in s.listings && (s.listings[id].seller == user || Pair(user, id) in s.owned);
            && (r == Failure(ListingNotFound) <==> !may)
            && (r == Failure(SnapshotNotFound) <==> may && !s.snapshots[s.listings[id].snapshot].complete)
            && (r.Success? <==> may && s.snapshots[s.listings[id].snapshot].complete)
            && (r.Success? ==> r.value == s.listings[id].snapshot)
  {
    if id in s.listings { InvFacts(s, id); }
  }

  /** No run makes a counter negative; if one were, or if a like were not counted,
      likes would be refused and nothing changed. */
  lemma BrokenCountersAreRefused(s: Shop, id: string, user: string)
    requires Visible(s, id)
    requires s.listings[id].likes < 0 || (s.listings[id].likes == 0 && Pair(user, id) in s.likes)
    ensures Unlike(s, id, user) == (s, Failure(LikeCountInconsistent))
    ensures s.listings[id].likes < 0 && (s.listings[id].seller != user || Pair(user, id) in s.likes) ==>
              Like(s, id, user) == (s, Failure(LikeCountInconsistent))
  {
  }

  // Operators.

  /** The blocks once this listing's source, if it is known, is blocked in its name. */
  function BlockedFor(s: Shop, id: string): map<BlockId, string>
    requires id in s.listings && s.listings[id].snapshot in s.snapshots
  {
    var x := s.listings[id];
    var source := s.snapshots[x.snapshot].source;
    if source == "" then s.blocks else s.blocks[BlockId(x.seller, x.contentType, source) := id]
  }

  lemma TakedownAnswers(s: Shop, id: string, actor: string)
    requires Inv(s)
    ensures var (t, r) := Takedown(s, id, actor);
            && (r == Failure(ListingNotFound) <==> id !in s.listings)
            && (r == Success(false) <==> id in s.listings && s.listings[id].moderation == Removed)
            && (r == Success(true) <==> id in s.listings && s.listings[id].moderation == Active)
            && (r != Success(true) ==> t == s)
            && (r == Success(true) ==>
                  && s.listings[id].snapshot in s.snapshots
                  && t == s.(listings := s.listings[id := s.listings[id].(moderation := Removed)],
                             blocks := BlockedFor(s, id), log := s.log + [ModerationEvent(id, TookDown, actor)],
                             ledger := t.ledger)
                  && if Compensated(s, id) then t.ledger == s.ledger
                     else Receives(s, t, s.listings[id].seller, 5, ModerationCompensation, Named(id)))
  {
    if id in s.listings {
      InvFacts(s, id);
      CompensationTable(s.ledger, id, s.listings[id]);
      if s.listings[id].moderation == Active { TakedownTable(s, id, actor); }
    }
  }

  lemma CompensationTable(l: Ledger, id: string, x: Listing)
    requires WalletOf(l, x.seller).balance >= 0
    ensures var k := Key(x.seller, ModerationCompensation, Named(id));
            var r := Stage(l, {}, CompensationMove(id, x));
            r.Success? &&
            if k in l.applied then Landed(l, r.value) == l
            else Booked(l, Landed(l, r.value), x.seller, 5, ModerationCompensation, Some(k),
                        Earning(WalletOf(l, x.seller), 5))
  {
    var k, w := Key(x.seller, ModerationCompensation, Named(id)), Earning(WalletOf(l, x.seller), 5);
    if k !in l.applied {
      var e := Entry(x.seller, 5, w.balance, ModerationCompensation, Some(k));
      assert Stage(l, {}, CompensationMove(id, x)) == Success(Fresh(e, w));
      WriteBooks(l, e, w);
    }
  }

  lemma TakedownTable(s: Shop, id: string, actor: string)
    requires id in s.listings && s.listings[id].moderation == Active && s.listings[id].snapshot in s.snapshots
    requires Balance(s, s.listings[id].seller) >= 0
    ensures var (t, r) := Takedown(s, id, actor);
            && r == Success(true)
            && t == s.(listings := s.listings[id := s.listings[id].(moderation := Removed)],
                       blocks := BlockedFor(s, id), log := s.log + [ModerationEvent(id, TookDown, actor)],
                       ledger := t.ledger)
            && t.ledger == Landed(s.ledger, Stage(s.ledger, {}, CompensationMove(id, s.listings[id])).value)
  {
    CompensationTable(s.ledger, id, s.listings[id]);
  }

  /** A takedown whose notification raises does the same but for the compensation,
      and ends in an error. */
  lemma UnnoticedAnswers(s: Shop, id: string, actor: string)
    requires Inv(s)
    ensures var (t, r) := UnnoticedTakedown(s, id, actor);
            && (r == Failure(ListingNotFound) <==> id !in s.listings)
            && (r == Success(false) <==> id in s.listings && s.listings[id].moderation == Removed)
            && (r == Failure(NotificationFailed) <==> id in s.listings && s.listings[id].moderation == Active)
            && t == if r == Failure(NotificationFailed) then Takedown(s, id, actor).0.(ledger := s.ledger) else s
  {
    if id in s.listings {
      InvFacts(s, id);
      CompensationTable(s.ledger, id, s.listings[id]);
    }
  }

  /** A restore brings a removed listing back unless its seller has deleted it, and
      lifts the block of its source only if the block is in its own name. */
  lemma RestoreAnswers(s: Shop, id: string, actor: string)
    requires Inv(s)
    ensures var (t, r) := Restore(s, id, actor);
            && (r == Failure(ListingNotFound) <==> id !in s.listings)
            && (r == Failure(TerminalListing) <==> id in s.listings && s.listings[id].status == Deleted)
            && (r == Failure(NotModerated) <==>
                  id in s.listings && s.listings[id].status != Deleted && s.listings[id].moderation == Active)
            && (r == Success(true) <==>
                  id in s.listings && s.listings[id].status != Deleted && s.listings[id].moderation == Removed)
            && (if r == Success(true) then s.listings[id].snapshot in s.snapshots && t == BroughtBack(s, id, actor)
                else t == s)
  {
    if id in s.listings {
      InvFacts(s, id);
      RestoreTable(s, id, actor);
    }
  }

  function BroughtBack(s: Shop, id: string, actor: string): Shop
    requires id in s.listings && s.listings[id].snapshot in s.snapshots
  {
    var x := s.listings[id];
    var b := BlockId(x.seller, x.contentType, s.snapshots[x.snapshot].source);
    s.(listings := s.listings[id := x.(moderation := Active)],
       blocks := if b.source != "" && b in s.blocks && s.blocks[b] == id then s.blocks - {b} else s.blocks,
       log := s.log + [ModerationEvent(id, Restored, actor)])
  }

  lemma RestoreTable(s: Shop, id: string, actor: string)
    requires id in s.listings && s.listings[id].snapshot in s.snapshots
    ensures var (t, r) := Restore(s, id, actor);
            if s.listings[id].status == Deleted then (t, r) == (s, Failure(TerminalListing))
            else if s.listings[id].moderation == Active then (t, r) == (s, Failure(NotModerated))
            else (t, r) == (BroughtBack(s, id, actor), Success(true))
  {
  }

  // Runs.

  /** The steps of a run are the operations above. */
  lemma StepsAreOperations(s: Shop, id: string, user: string, now: int)
    ensures Step(s, DoPublish(id, user, now)) == Publish(s, id, user, now)
    ensures Step(s, DoUnpublish(id, user)) == Unpublish(s, id, user)
    ensures Step(s, DoDelete(id, user)) == Delete(s, id, user)
    ensures Step(s, DoAcquire(id, user)) == Acquire(s, id, user)
    ensures Step(s, DoLike(id, user)) == Like(s, id, user)
    ensures Step(s, DoUnlike(id, user)) == Unlike(s, id, user)
    ensures Step(s, DoTakedown(id, user, true)) == Takedown(s, id, user)
    ensures Step(s, DoTakedown(id, user, false)) == UnnoticedTakedown(s, id, user)
    ensures Step(s, DoRestore(id, user)) == Restore(s, id, user)
  {
  }

  function Elsewheres(ops: seq<Runs.Op>): seq<Op> { seq(|ops|, i requires 0 <= i < |ops| => Elsewhere(ops[i])) }

  /** A run of other features only is a run of the ledger, and leaves the rest alone. */
  lemma {:induction false} OtherFeaturesRunAlike(s: Shop, ops: seq<Runs.Op>)
    ensures Run(s, Elsewheres(ops)) == s.(ledger := Runs.Run(s.ledger, ops))
    decreases |ops|
  {
    if ops != [] {
      assert Elsewheres(ops)[1..] == Elsewheres(ops[1..]);
      OtherFeaturesRunAlike(Step(s, Elsewhere(ops[0])).0, ops[1..]);
    }
  }

  // Ownership over whole runs.

  /** Whoever comes to own a listing bought it himself, when it was there to be seen. */
  lemma OwnershipIsBought(s: Shop, op: Op, p: Pair)
    requires Inv(s) && ValidOp(s, op) && p !in s.owned && p in Step(s, op).0.owned
    ensures op == DoAcquire(p.listing, p.user) && Visible(s, p.listing)
    ensures s.listings[p.listing].seller != p.user && Balance(s, p.user) >= s.listings[p.listing].price
  {
    if op.DoAcquire? {
      AcquireAnswers(s, op.id, op.buyer);
    } else if SellerOp(op) {
      SellerFrame(s, op);
    } else if OperatorOp(op) {
      OperatorFrame(s, op);
    } else if op.DoLike? || op.DoUnlike? {
      if Step(s, op).0 != s { LikeEdits(s, op); }
    } else if op.DoDraft? && Step(s, op).0 != s {
      DraftAdds(s, op);
    }
  }

  /** Some operation of the run bought it, when it was there to be seen. */
  predicate BoughtVisibly(s: Shop, ops: seq<Op>, p: Pair)
    decreases |ops|
  {
    ops != [] &&
    ((ops[0] == DoAcquire(p.listing, p.user) && Visible(s, p.listing))
     || BoughtVisibly(Step(s, ops[0]).0, ops[1..], p))
  }

  lemma {:induction false} OwnersBoughtVisibly(s: Shop, ops: seq<Op>, p: Pair)
    requires Inv(s) && ValidRun(s, ops) && p !in s.owned && p in Run(s, ops).owned
    ensures BoughtVisibly(s, ops, p)
    decreases |ops|
  {
    if ops != [] {
      var t := Step(s, ops[0]).0;
      StepKeepsInv(s, ops[0]);
      if p in t.owned {
        OwnershipIsBought(s, ops[0], p);
      } else {
        OwnersBoughtVisibly(t, ops[1..], p);
      }
    }
  }
}
