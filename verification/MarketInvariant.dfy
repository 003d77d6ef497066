/** What every marketplace operation keeps: the indexes agree with the listings,
    the counters with the relations, the moderation log with the status, and the
    ledger keys with what was paid. */
module MarketInvariant {
  import opened Wrappers
  import opened LedgerModel
  import opened StagedMoves
  import opened MarketModel

  ghost predicate ListingsOk(s: Shop) {
    forall id :: id in s.listings ==>
      var x := s.listings[id];
      && 0 <= x.price < PRICE_LIMIT
      && x.snapshot in s.snapshots && s.snapshots[x.snapshot].seller == x.seller
      && (x.feePaid <==> x.publishedAt.Some?)
      && (x.status.Published? ==> x.feePaid)
  }

  /** A title key is claimed by a listing exactly while that listing is PUBLISHED
      under it. */
  ghost predicate TitlesOk(s: Shop) {
    && (forall k :: k in s.titles ==>
          s.titles[k] in s.listings && s.listings[s.titles[k]].status.Published? && s.listings[s.titles[k]].title == k)
    && (forall id :: id in s.listings && s.listings[id].status.Published? ==>
          s.listings[id].title in s.titles && s.titles[s.listings[id].title] == id)
  }

  /** An ownership fixes what was bought, and its seller was told, in one commit. */
  ghost predicate OwnedOk(s: Shop) {
    && s.sales.Keys == s.owned.Keys
    && forall p :: p in s.owned ==>
         && p.listing in s.listings
         && var x := s.listings[p.listing];
            && x.seller != p.user
            && s.owned[p] == Ownership(x.seller, x.snapshot, x.price)
            && s.sales[p] == Sale(x.seller, x.price)
  }

  /** The pairs of one listing. */
  function On(pairs: set<Pair>, id: string): set<Pair> { set p | p in pairs && p.listing == id }

  ghost predicate DownloadsOk(s: Shop) {
    && (forall p :: p in s.owned ==> p.listing in s.listings)
    && forall id :: id in s.listings ==> s.listings[id].downloads == |On(s.owned.Keys, id)|
  }

  ghost predicate LikesOk(s: Shop) {
    && (forall p :: p in s.likes ==> p.listing in s.listings)
    && forall id :: id in s.listings ==> s.listings[id].likes == |On(s.likes, id)|
  }

  /** A block is owned by a REMOVED listing made from the very source it blocks. */
  ghost predicate BlocksOk(s: Shop) {
    forall b :: b in s.blocks ==>
      && s.blocks[b] in s.listings && s.listings[s.blocks[b]].moderation.Removed?
      && BlockOf(s, s.listings[s.blocks[b]]) == Some(b)
  }

  /** The last thing the log says about a listing. */
  function LastAction(log: seq<ModerationEvent>, id: string): Option<Action> {
    if log == [] then None
    else if log[|log| - 1].listing == id then Some(log[|log| - 1].action)
    else LastAction(log[..|log| - 1], id)
  }

  /** Takedowns and restores of a listing take turns, beginning with a takedown. */
  ghost predicate Alternates(log: seq<ModerationEvent>) {
    forall i :: 0 <= i < |log| ==>
      (log[i].action.TookDown? <==> LastAction(log[..i], log[i].listing) != Some(TookDown))
  }

  ghost predicate LogOk(s: Shop) {
    && Alternates(s.log)
    && (forall e :: e in s.log ==> e.listing in s.listings)
    && (forall id :: id in s.listings ==>
          (s.listings[id].moderation.Removed? <==> LastAction(s.log, id) == Some(TookDown)))
  }

  predicate EverDown(s: Shop, id: string) { LastAction(s.log, id).Some? }

  /** The seller of this listing has been paid for a takedown of it. */
  predicate Compensated(s: Shop, id: string) {
    id in s.listings && CompensationMove(id, s.listings[id]).Key() in s.ledger.applied
  }

  /** The marketplace keys that the state accounts for. */
  predicate Justified(s: Shop, k: Key) {
    match k.event
    case Named(id) =>
      && id in s.listings
      && var x := s.listings[id];
         || (k == FeeMove(id, x).Key() && x.feePaid)
         || (k == CompensationMove(id, x).Key() && EverDown(s, id))
    case Bought(buyer, id) =>
      && id in s.listings && Pair(buyer, id) in s.owned
      && var x, p := s.listings[id], Pair(buyer, id);
         x.price > 0 && (k == PurchaseMove(p, x).Key() || k == SaleMove(p, x).Key())
    case RefundOf(_) => false
  }

  /** Nothing was charged or paid without its cause, and every cause but a takedown
      was: the compensation can get lost. */
  ghost predicate KeysOk(s: Shop) {
    forall k: Key :: MarketReason(k.reason) ==>
      && (k in s.ledger.applied ==> Justified(s, k))
      && (Justified(s, k) && !k.reason.ModerationCompensation? ==> k in s.ledger.applied)
  }

  function MarketSum(es: seq<Entry>): int {
    if es == [] then 0
    else MarketSum(es[..|es| - 1]) + if MarketReason(es[|es| - 1].reason) then es[|es| - 1].delta else 0
  }

  function FeesPaid(s: Shop): set<string> { set id | id in s.listings && s.listings[id].feePaid }
  function TakenDown(s: Shop): set<string> { set id | id in s.listings && EverDown(s, id) }
  function PaidBack(s: Shop): set<string> { set id | id in s.listings && Compensated(s, id) }

  /** All the marketplace ever did to the number of shards. */
  ghost predicate SumOk(s: Shop) {
    MarketSum(s.ledger.entries) == COMPENSATION * |PaidBack(s)| - FEE * |FeesPaid(s)|
  }

  // Which part of a listing an operation can touch.

  predicate SameIdentity(x: Listing, y: Listing) {
    x.seller == y.seller && x.contentType == y.contentType && x.title == y.title && x.price == y.price
    && x.snapshot == y.snapshot
  }

  predicate SameStatus(x: Listing, y: Listing) {
    x.status == y.status && x.feePaid == y.feePaid && x.publishedAt == y.publishedAt
  }

  predicate SameCounts(x: Listing, y: Listing) { x.downloads == y.downloads && x.likes == y.likes }

  /** Nobody's identity changes and no listing appears or goes. */
  ghost predicate SameListings(s: Shop, t: Shop) {
    && t.listings.Keys == s.listings.Keys
    && forall id :: id in s.listings ==> SameIdentity(s.listings[id], t.listings[id])
  }

  ghost predicate StatusUntouched(s: Shop, t: Shop) {
    && t.titles == s.titles
    && forall id :: id in s.listings && id in t.listings ==> SameStatus(s.listings[id], t.listings[id])
  }

  ghost predicate RelationsUntouched(s: Shop, t: Shop) {
    && t.owned == s.owned && t.sales == s.sales && t.likes == s.likes
    && forall id :: id in s.listings && id in t.listings ==> SameCounts(s.listings[id], t.listings[id])
  }

  ghost predicate ModerationUntouched(s: Shop, t: Shop) {
    && t.blocks == s.blocks && t.log == s.log
    && forall id :: id in s.listings && id in t.listings ==> s.listings[id].moderation == t.listings[id].moderation
  }

  predicate SellerOp(op: Op) { op.DoPublish? || op.DoUnpublish? || op.DoDelete? }
  predicate BuyerOp(op: Op) { op.DoAcquire? || op.DoLike? || op.DoUnlike? }
  predicate OperatorOp(op: Op) { op.DoTakedown? || op.DoRestore? }

  /** One listing was rewritten, keeping its identity, and no other. */
  ghost predicate Edited(s: Shop, t: Shop, id: string) {
    && id in s.listings && id in t.listings
    && t.listings == s.listings[id := t.listings[id]]
    && SameIdentity(s.listings[id], t.listings[id])
  }

  lemma PublishEdits(s: Shop, id: string, seller: string, now: int)
    requires Publish(s, id, seller, now).0 != s
    ensures Mine(s, id, seller) && !s.listings[id].status.Published? && PublishBar(s, id, seller).None?
    ensures var t, x := Publish(s, id, seller, now).0, s.listings[id];
            && t == GoesUp(s, id, now, t.ledger)
            && (x.feePaid ==> t.ledger == s.ledger)
            && (!x.feePaid ==> var fee := Stage(s.ledger, {}, FeeMove(id, x));
                               fee.Success? && t.ledger == Landed(s.ledger, fee.value))
  {
  }

  lemma DownEdits(s: Shop, op: Op)
    requires (op.DoUnpublish? || op.DoDelete?) && Step(s, op).0 != s
    ensures Mine(s, op.id, op.seller) && !s.listings[op.id].status.Deleted?
    ensures var t, x := Step(s, op).0, s.listings[op.id];
            var y := x.(status := if op.DoDelete? then Deleted else Unlisted);
            t == SetListing(s, op.id, y).(titles := Released(s, op.id, x))
  {
  }

  lemma SellerEdits(s: Shop, op: Op)
    requires SellerOp(op) && Step(s, op).0 != s
    ensures var t := Step(s, op).0;
            && Edited(s, t, op.id)
            && SameCounts(s.listings[op.id], t.listings[op.id])
            && s.listings[op.id].moderation == t.listings[op.id].moderation
            && t.owned == s.owned && t.sales == s.sales && t.likes == s.likes
            && t.blocks == s.blocks && t.log == s.log && t.snapshots == s.snapshots
  {
    if op.DoPublish? { PublishEdits(s, op.id, op.seller, op.now); } else { DownEdits(s, op); }
  }

  lemma AcquireEdits(s: Shop, id: string, buyer: string)
    requires Acquire(s, id, buyer).0 != s
    ensures var t, p := Acquire(s, id, buyer).0, Pair(buyer, id);
            && Edited(s, t, id)
            && t.likes == s.likes && t.titles == s.titles
            && t.blocks == s.blocks && t.log == s.log && t.snapshots == s.snapshots
            && p !in s.owned
            && var x := s.listings[id];
               && t.listings[id] == x.(downloads := x.downloads + 1)
               && x.seller != buyer
               && t.owned == s.owned[p := Ownership(x.seller, x.snapshot, x.price)]
               && t.sales == s.sales[p := Sale(x.seller, x.price)]
               && Paid(s.ledger, p, x) == Success(t.ledger)
  {
  }

  lemma LikeEdits(s: Shop, op: Op)
    requires (op.DoLike? || op.DoUnlike?) && Step(s, op).0 != s
    ensures var t, p := Step(s, op).0, Pair(op.user, op.id);
            && Edited(s, t, op.id)
            && t.listings[op.id] == s.listings[op.id].(likes := t.listings[op.id].likes)
            && (op.DoLike? ==> p !in s.likes && t.likes == s.likes + {p}
                               && t.listings[op.id].likes == s.listings[op.id].likes + 1)
            && (op.DoUnlike? ==> p in s.likes && t.likes == s.likes - {p}
                                 && t.listings[op.id].likes == s.listings[op.id].likes - 1)
            && t.owned == s.owned && t.sales == s.sales && t.titles == s.titles
            && t.blocks == s.blocks && t.log == s.log && t.snapshots == s.snapshots && t.ledger == s.ledger
  {
  }

  lemma TakedownEdits(s: Shop, op: Op)
    requires op.DoTakedown? && Step(s, op).0 != s
    ensures op.id in s.listings && !s.listings[op.id].moderation.Removed?
    ensures var t := Step(s, op).0;
            && t == GoesDown(s, op.id, op.actor, t.ledger)
            && (if op.notified
                then var paid := Stage(s.ledger, {}, CompensationMove(op.id, s.listings[op.id]));
                     paid.Success? && t.ledger == Landed(s.ledger, paid.value)
                else t.ledger == s.ledger)
  {
  }

  lemma RestoreEdits(s: Shop, op: Op)
    requires op.DoRestore? && Step(s, op).0 != s
    ensures op.id in s.listings && s.listings[op.id].moderation.Removed? && !s.listings[op.id].status.Deleted?
    ensures Step(s, op).0
         == SetListing(s, op.id, s.listings[op.id].(moderation := Active))
              .(blocks := Unblocked(s, op.id, s.listings[op.id]),
                log := s.log + [ModerationEvent(op.id, Restored, op.actor)])
  {
  }

  lemma OperatorEdits(s: Shop, op: Op)
    requires OperatorOp(op) && Step(s, op).0 != s
    ensures var t := Step(s, op).0;
            && Edited(s, t, op.id)
            && t.listings[op.id] == s.listings[op.id].(moderation := t.listings[op.id].moderation)
            && (s.listings[op.id].moderation.Removed? <==> op.DoRestore?)
            && (t.listings[op.id].moderation.Removed? <==> op.DoTakedown?)
            && t.owned == s.owned && t.sales == s.sales && t.likes == s.likes && t.titles == s.titles
            && t.log == s.log + [ModerationEvent(op.id, if op.DoTakedown? then TookDown else Restored, op.actor)]
            && t.snapshots == s.snapshots
  {
    if op.DoTakedown? { TakedownEdits(s, op); } else { RestoreEdits(s, op); }
  }

  /** A seller never touches counters, relations or the moderation axis. */
  lemma SellerFrame(s: Shop, op: Op)
    requires SellerOp(op)
    ensures var t := Step(s, op).0;
            SameListings(s, t) && RelationsUntouched(s, t) && ModerationUntouched(s, t) && t.snapshots == s.snapshots
  {
    if Step(s, op).0 != s { SellerEdits(s, op); }
  }

  /** A buyer never touches a status, a title or the moderation axis. */
  lemma BuyerFrame(s: Shop, op: Op)
    requires BuyerOp(op)
    ensures var t := Step(s, op).0;
            SameListings(s, t) && StatusUntouched(s, t) && ModerationUntouched(s, t) && t.snapshots == s.snapshots
  {
    if Step(s, op).0 != s {
      if op.DoAcquire? { AcquireEdits(s, op.id, op.buyer); } else { LikeEdits(s, op); }
    }
  }

  /** An operator never touches the seller's axis, counters or relations. */
  lemma OperatorFrame(s: Shop, op: Op)
    requires OperatorOp(op)
    ensures var t := Step(s, op).0;
            SameListings(s, t) && StatusUntouched(s, t) && RelationsUntouched(s, t) && t.snapshots == s.snapshots
  {
    if Step(s, op).0 != s { OperatorEdits(s, op); }
  }

  // Each part is kept by every operation.

  lemma ListingsFrame(s: Shop, t: Shop)
    requires ListingsOk(s) && SameListings(s, t) && StatusUntouched(s, t) && t.snapshots == s.snapshots
    ensures ListingsOk(t)
  {
  }

  lemma SellerKeepsListings(s: Shop, op: Op)
    requires ListingsOk(s) && SellerOp(op)
    ensures ListingsOk(Step(s, op).0)
  {
    var t := Step(s, op).0;
    if t != s {
      SellerEdits(s, op);
      SellerAxis(s, op);
    }
  }

  /** The fee is paid when a listing first goes up and stays paid; the time of
      the first publication is set then and never changes. */
  lemma SellerAxis(s: Shop, op: Op)
    requires SellerOp(op) && Step(s, op).0 != s
    ensures var t := Step(s, op).0;
            op.id in s.listings && op.id in t.listings &&
            var x, y := s.listings[op.id], t.listings[op.id];
            && !x.status.Deleted?
            && (y.status.Published? ==> y.feePaid && y.publishedAt.Some?)
            && (!y.status.Published? ==> y.feePaid == x.feePaid && y.publishedAt == x.publishedAt)
            && (x.feePaid ==> y.feePaid)
            && (x.publishedAt.Some? ==> y.publishedAt == x.publishedAt)
  {
    if op.DoPublish? { PublishEdits(s, op.id, op.seller, op.now); } else { DownEdits(s, op); }
  }

  lemma DraftKeepsListings(s: Shop, op: Op)
    requires ListingsOk(s) && (op.DoDraft? || op.DoSnapshot?)
    ensures ListingsOk(Step(s, op).0)
  {
  }

  lemma KeepsListings(s: Shop, op: Op)
    requires ListingsOk(s)
    ensures ListingsOk(Step(s, op).0)
  {
    if SellerOp(op) {
      SellerKeepsListings(s, op);
    } else if BuyerOp(op) {
      BuyerFrame(s, op);
      ListingsFrame(s, Step(s, op).0);
    } else if OperatorOp(op) {
      OperatorFrame(s, op);
      ListingsFrame(s, Step(s, op).0);
    } else if !op.Elsewhere? {
      DraftKeepsListings(s, op);
    }
  }

  lemma TitlesFrame(s: Shop, t: Shop)
    requires TitlesOk(s) && SameListings(s, t) && StatusUntouched(s, t)
    ensures TitlesOk(t)
  {
  }

  /** Going up claims the title, which was free. */
  lemma PublishKeepsTitles(s: Shop, id: string, seller: string, now: int)
    requires TitlesOk(s)
    ensures TitlesOk(Publish(s, id, seller, now).0)
  {
    var t := Publish(s, id, seller, now).0;
    if t != s {
      PublishEdits(s, id, seller, now);
      TitlesGain(s, t, id);
    }
  }

  lemma TitlesGain(s: Shop, t: Shop, id: string)
    requires TitlesOk(s) && id in s.listings && !s.listings[id].status.Published?
    requires id in t.listings && t.listings[id].status.Published? && SameIdentity(s.listings[id], t.listings[id])
    requires t.listings == s.listings[id := t.listings[id]]
    requires s.listings[id].title !in s.titles && t.titles == s.titles[s.listings[id].title := id]
    ensures TitlesOk(t)
  {
  }

  /** Going down gives the title back, and only that one. */
  lemma TitlesLose(s: Shop, t: Shop, id: string)
    requires TitlesOk(s) && id in s.listings && id in t.listings
    requires !t.listings[id].status.Published? && t.listings == s.listings[id := t.listings[id]]
    requires t.titles == Released(s, id, s.listings[id])
    ensures TitlesOk(t)
  {
    var x := s.listings[id];
    forall k | k in t.titles
      ensures t.titles[k] in t.listings
      ensures t.listings[t.titles[k]].status.Published? && t.listings[t.titles[k]].title == k
    {
      assert k in s.titles && t.titles[k] == s.titles[k];
      assert s.titles[k] == id ==> k == x.title;
    }
    forall i | i in t.listings && t.listings[i].status.Published?
      ensures t.listings[i].title in t.titles && t.titles[t.listings[i].title] == i
    {
      assert i != id && s.titles[s.listings[i].title] == i;
    }
  }

  lemma KeepsTitles(s: Shop, op: Op)
    requires TitlesOk(s) && ValidOp(s, op)
    ensures TitlesOk(Step(s, op).0)
  {
    var t := Step(s, op).0;
    match op
    case DoPublish(id, seller, now) => PublishKeepsTitles(s, id, seller, now);
    case DoUnpublish(id, seller) => if t != s { TitlesLose(s, t, id); }
    case DoDelete(id, seller) => if t != s { TitlesLose(s, t, id); }
    case DoAcquire(_, _) =>
      BuyerFrame(s, op);
      TitlesFrame(s, t);
    case DoLike(_, _) =>
      BuyerFrame(s, op);
      TitlesFrame(s, t);
    case DoUnlike(_, _) =>
      BuyerFrame(s, op);
      TitlesFrame(s, t);
    case DoTakedown(_, _, _) =>
      OperatorFrame(s, op);
      TitlesFrame(s, t);
    case DoRestore(_, _) =>
      OperatorFrame(s, op);
      TitlesFrame(s, t);
    case DoDraft(_, _, _, _, _, _) => DraftKeepsTitles(s, op);
    case _ =>
  }

  lemma DraftKeepsTitles(s: Shop, op: Op)
    requires TitlesOk(s) && op.DoDraft? && ValidOp(s, op)
    ensures TitlesOk(Step(s, op).0)
  {
  }

  lemma OnAdds(pairs: set<Pair>, p: Pair, id: string)
    requires p !in pairs
    ensures |On(pairs + {p}, id)| == |On(pairs, id)| + if p.listing == id then 1 else 0
  {
    assert On(pairs + {p}, id) == On(pairs, id) + if p.listing == id then {p} else {};
  }

  lemma OnRemoves(pairs: set<Pair>, p: Pair, id: string)
    requires p in pairs
    ensures |On(pairs - {p}, id)| == |On(pairs, id)| - if p.listing == id then 1 else 0
  {
    assert On(pairs - {p}, id) == On(pairs, id) - if p.listing == id then {p} else {};
  }

  lemma NothingOn(pairs: set<Pair>, id: string)
    requires forall p :: p in pairs ==> p.listing != id
    ensures |On(pairs, id)| == 0
  {
    assert On(pairs, id) == {};
  }

  ghost predicate RelationsOk(s: Shop) { OwnedOk(s) && DownloadsOk(s) && LikesOk(s) }

  lemma RelationsFrame(s: Shop, t: Shop)
    requires RelationsOk(s) && SameListings(s, t) && RelationsUntouched(s, t)
    ensures RelationsOk(t)
  {
  }

  lemma DraftKeepsRelations(s: Shop, op: Op)
    requires RelationsOk(s) && (op.DoDraft? || op.DoSnapshot?) && ValidOp(s, op)
    ensures RelationsOk(Step(s, op).0)
  {
    if op.DoDraft? && Step(s, op).0 != s {
      DraftAdds(s, op);
      RelationsDraft(s, Step(s, op).0, op.id);
    }
  }

  lemma RelationsDraft(s: Shop, t: Shop, id: string)
    requires RelationsOk(s) && id !in s.listings && id in t.listings && t.listings == s.listings[id := t.listings[id]]
    requires t.listings[id].downloads == 0 && t.listings[id].likes == 0
    requires t.owned == s.owned && t.sales == s.sales && t.likes == s.likes
    ensures RelationsOk(t)
  {
    NothingOn(s.owned.Keys, id);
    NothingOn(s.likes, id);
  }

  lemma DraftAdds(s: Shop, op: Op)
    requires op.DoDraft? && ValidOp(s, op) && Step(s, op).0 != s
    ensures var t := Step(s, op).0;
            && op.id !in s.listings && op.id in t.listings
            && t == SetListing(s, op.id, t.listings[op.id])
            && t.listings[op.id].downloads == 0 && t.listings[op.id].likes == 0
            && t.listings[op.id].status.Draft? && !t.listings[op.id].feePaid && t.listings[op.id].moderation.Active?
  {
  }

  lemma AcquireKeepsRelations(s: Shop, id: string, buyer: string)
    requires RelationsOk(s)
    ensures RelationsOk(Acquire(s, id, buyer).0)
  {
    var t := Acquire(s, id, buyer).0;
    if t != s {
      AcquireEdits(s, id, buyer);
      OwnedGains(s, t, Pair(buyer, id));
      DownloadsGain(s, t, Pair(buyer, id));
      LikesFrame(s, t, id);
    }
  }

  lemma OwnedGains(s: Shop, t: Shop, p: Pair)
    requires OwnedOk(s) && Edited(s, t, p.listing) && s.listings[p.listing].seller != p.user
    requires var x := s.listings[p.listing];
             && t.owned == s.owned[p := Ownership(x.seller, x.snapshot, x.price)]
             && t.sales == s.sales[p := Sale(x.seller, x.price)]
    ensures OwnedOk(t)
  {
  }

  lemma DownloadsGain(s: Shop, t: Shop, p: Pair)
    requires DownloadsOk(s) && Edited(s, t, p.listing) && p !in s.owned && t.owned.Keys == s.owned.Keys + {p}
    requires t.listings[p.listing].downloads == s.listings[p.listing].downloads + 1
    ensures DownloadsOk(t)
  {
    forall i | i in t.listings ensures t.listings[i].downloads == |On(t.owned.Keys, i)| {
      OnAdds(s.owned.Keys, p, i);
    }
  }

  lemma LikesFrame(s: Shop, t: Shop, id: string)
    requires LikesOk(s) && Edited(s, t, id) && t.likes == s.likes && t.listings[id].likes == s.listings[id].likes
    ensures LikesOk(t)
  {
  }

  lemma OwnedFrame(s: Shop, t: Shop, id: string)
    requires OwnedOk(s) && DownloadsOk(s) && Edited(s, t, id) && t.owned == s.owned && t.sales == s.sales
    requires t.listings[id].downloads == s.listings[id].downloads
    ensures OwnedOk(t) && DownloadsOk(t)
  {
  }

  lemma LikesKeepRelations(s: Shop, op: Op)
    requires RelationsOk(s) && (op.DoLike? || op.DoUnlike?)
    ensures RelationsOk(Step(s, op).0)
  {
    var t := Step(s, op).0;
    if t != s {
      LikeEdits(s, op);
      OwnedFrame(s, t, op.id);
      LikesShift(s, t, Pair(op.user, op.id), op.DoLike?);
    }
  }

  lemma LikesShift(s: Shop, t: Shop, p: Pair, up: bool)
    requires LikesOk(s) && Edited(s, t, p.listing)
    requires up ==> p !in s.likes && t.likes == s.likes + {p}
    requires !up ==> p in s.likes && t.likes == s.likes - {p}
    requires t.listings[p.listing].likes == s.listings[p.listing].likes + if up then 1 else -1
    ensures LikesOk(t)
  {
    forall i | i in t.listings ensures t.listings[i].likes == |On(t.likes, i)| {
      if up { OnAdds(s.likes, p, i); } else { OnRemoves(s.likes, p, i); }
    }
  }

  lemma KeepsRelations(s: Shop, op: Op)
    requires RelationsOk(s) && ValidOp(s, op)
    ensures RelationsOk(Step(s, op).0)
  {
    if SellerOp(op) {
      SellerFrame(s, op);
      RelationsFrame(s, Step(s, op).0);
    } else if OperatorOp(op) {
      OperatorFrame(s, op);
      RelationsFrame(s, Step(s, op).0);
    } else if op.DoDraft? || op.DoSnapshot? {
      DraftKeepsRelations(s, op);
    } else if op.DoAcquire? {
      AcquireKeepsRelations(s, op.id, op.buyer);
    } else if BuyerOp(op) {
      LikesKeepRelations(s, op);
    }
  }

  lemma BlocksFrame(s: Shop, t: Shop)
    requires BlocksOk(s) && SameListings(s, t) && ModerationUntouched(s, t) && t.snapshots == s.snapshots
    ensures BlocksOk(t)
  {
  }

  lemma OperatorKeepsBlocks(s: Shop, op: Op)
    requires BlocksOk(s) && OperatorOp(op)
    ensures BlocksOk(Step(s, op).0)
  {
    var t := Step(s, op).0;
    if t != s {
      if op.DoTakedown? {
        TakedownEdits(s, op);
        TakedownKeepsBlocks(s, op.id, op.actor, t.ledger);
      } else {
        RestoreEdits(s, op);
        RestoreKeepsBlocks(s, t, op.id);
      }
    }
  }

  lemma TakedownKeepsBlocks(s: Shop, id: string, actor: string, l: Ledger)
    requires BlocksOk(s) && id in s.listings
    ensures BlocksOk(GoesDown(s, id, actor, l))
  {
  }

  lemma RestoreKeepsBlocks(s: Shop, t: Shop, id: string)
    requires BlocksOk(s) && id in s.listings && t.snapshots == s.snapshots
    requires t.listings == s.listings[id := s.listings[id].(moderation := Active)]
    requires t.blocks == Unblocked(s, id, s.listings[id])
    ensures BlocksOk(t)
  {
  }

  lemma DraftKeepsBlocks(s: Shop, op: Op)
    requires BlocksOk(s) && (op.DoDraft? || op.DoSnapshot?) && ValidOp(s, op)
    ensures BlocksOk(Step(s, op).0)
  {
  }

  lemma KeepsBlocks(s: Shop, op: Op)
    requires BlocksOk(s) && ValidOp(s, op)
    ensures BlocksOk(Step(s, op).0)
  {
    if SellerOp(op) {
      SellerFrame(s, op);
      BlocksFrame(s, Step(s, op).0);
    } else if BuyerOp(op) {
      BuyerFrame(s, op);
      BlocksFrame(s, Step(s, op).0);
    } else if OperatorOp(op) {
      OperatorKeepsBlocks(s, op);
    } else if !op.Elsewhere? {
      DraftKeepsBlocks(s, op);
    }
  }

  lemma LastActionAppend(log: seq<ModerationEvent>, e: ModerationEvent, id: string)
    ensures LastAction(log + [e], id) == if e.listing == id then Some(e.action) else LastAction(log, id)
  {
    assert (log + [e])[..|log|] == log;
  }

  lemma AlternatesAppend(log: seq<ModerationEvent>, e: ModerationEvent)
    requires Alternates(log) && (e.action.TookDown? <==> LastAction(log, e.listing) != Some(TookDown))
    ensures Alternates(log + [e])
  {
    var all := log + [e];
    forall i | 0 <= i < |all|
      ensures all[i].action.TookDown? <==> LastAction(all[..i], all[i].listing) != Some(TookDown)
    {
      if i < |log| {
        assert all[..i] == log[..i];
      } else {
        assert all[..i] == log;
      }
    }
  }

  lemma {:induction false} NeverMentioned(log: seq<ModerationEvent>, id: string)
    requires forall e :: e in log ==> e.listing != id
    ensures LastAction(log, id) == None
  {
    if log != [] {
      assert log[|log| - 1] in log;
      NeverMentioned(log[..|log| - 1], id);
    }
  }

  lemma LogFrame(s: Shop, t: Shop)
    requires LogOk(s) && SameListings(s, t) && ModerationUntouched(s, t)
    ensures LogOk(t)
  {
  }

  lemma DraftKeepsLog(s: Shop, op: Op)
    requires LogOk(s) && (op.DoDraft? || op.DoSnapshot?) && ValidOp(s, op)
    ensures LogOk(Step(s, op).0)
  {
    if op.DoDraft? {
      NeverMentioned(s.log, op.id);
    }
  }

  lemma OperatorKeepsLog(s: Shop, op: Op)
    requires LogOk(s) && OperatorOp(op)
    ensures LogOk(Step(s, op).0)
  {
    var t := Step(s, op).0;
    if t != s {
      OperatorEdits(s, op);
      LogGrows(s, t, ModerationEvent(op.id, if op.DoTakedown? then TookDown else Restored, op.actor));
    }
  }

  lemma KeepsLog(s: Shop, op: Op)
    requires LogOk(s) && ValidOp(s, op)
    ensures LogOk(Step(s, op).0)
  {
    if SellerOp(op) {
      SellerFrame(s, op);
      LogFrame(s, Step(s, op).0);
    } else if BuyerOp(op) {
      BuyerFrame(s, op);
      LogFrame(s, Step(s, op).0);
    } else if OperatorOp(op) {
      OperatorKeepsLog(s, op);
    } else if !op.Elsewhere? {
      DraftKeepsLog(s, op);
    }
  }

  lemma LogGrows(s: Shop, t: Shop, e: ModerationEvent)
    requires LogOk(s) && e.listing in s.listings && t.log == s.log + [e] && t.listings.Keys == s.listings.Keys
    requires e.action.TookDown? <==> !s.listings[e.listing].moderation.Removed?
    requires t.listings[e.listing].moderation.Removed? <==> e.action.TookDown?
    requires forall id :: id in s.listings && id != e.listing ==> t.listings[id] == s.listings[id]
    ensures LogOk(t)
  {
    AlternatesAppend(s.log, e);
    forall id | id in t.listings
      ensures t.listings[id].moderation.Removed? <==> LastAction(t.log, id) == Some(TookDown)
    {
      LastActionAppend(s.log, e, id);
    }
  }
}
