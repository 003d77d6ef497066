/** `InMemoryMarketplaceStore` in the imperative form of app/marketplace/store.py:
    dictionaries updated in place, and shard movements that join the store's own
    writes in one transaction. Every method is proved against the value
    operations the theorems are about. */
module MarketStore {
  import opened Wrappers
  import opened LedgerModel
  import opened Transactions
  import opened StagedMoves
  import opened MarketModel
  import opened MarketTransactions
  import Stores = ShardStore

  /** A commit of these writes ends in `end`, whatever was written before them. */
  ghost predicate CommitsTo(s: Shop, writes: seq<ShopWrite>, end: Shop) {
    forall undos: seq<Shop -> Shop> :: Transactions.Committed(s, writes, undos) == (end, true)
  }

  lemma NothingCommitsTo(s: Shop)
    ensures CommitsTo(s, [], s)
  {
  }

  lemma FirstCommits(s: Shop, write: ShopWrite, rest: seq<ShopWrite>, end: Shop)
    requires write(s).Applied? && CommitsTo(write(s).state, rest, end)
    ensures CommitsTo(s, [write] + rest, end)
  {
    forall undos: seq<Shop -> Shop> ensures Transactions.Committed(s, [write] + rest, undos) == (end, true) {
      assert ([write] + rest)[0] == write && ([write] + rest)[1..] == rest;
      assert Transactions.Committed(write(s).state, rest, undos + [write(s).undo]) == (end, true);
    }
  }

  lemma ShardsCommit(s: Shop, st: Staging, rest: seq<ShopWrite>, end: Shop)
    requires CommitsTo(s.(ledger := Landed(s.ledger, st)), rest, end)
    ensures CommitsTo(s, ShardWrites(st) + rest, end)
  {
    if st.Fresh? {
      FirstCommits(s, Lifted(WriteOf(st.entry, st.wallet)), rest, end);
    } else {
      assert ShardWrites(st) + rest == rest && s.(ledger := Landed(s.ledger, st)) == s;
    }
  }

  lemma TailCommits(s: Shop, id: string, x: Listing, key: string)
    ensures CommitsTo(s, [WriteListing(id, x), ClaimTitle(key, id)],
                      SetListing(s, id, x).(titles := s.titles[key := id]))
  {
    var one := WriteListing(id, x)(s);
    var two := ClaimTitle(key, id)(one.state);
    assert [WriteListing(id, x), ClaimTitle(key, id)] == [WriteListing(id, x)] + ([ClaimTitle(key, id)] + []);
    NothingCommitsTo(two.state);
    FirstCommits(one.state, ClaimTitle(key, id), [], two.state);
    FirstCommits(s, WriteListing(id, x), [ClaimTitle(key, id)] + [], two.state);
  }

  /** The writes a purchase adds after its shard movements. */
  function BagWrites(p: Pair, x: Listing): seq<ShopWrite> {
    [WriteOwnership(p, Ownership(x.seller, x.snapshot, x.price)),
     WriteListing(p.listing, x.(downloads := x.downloads + 1)),
     WriteNotice(p, Sale(x.seller, x.price))]
  }

  lemma BagCommits(s: Shop, p: Pair, x: Listing)
    requires p !in s.owned
    ensures CommitsTo(s, BagWrites(p, x), Bagged(s, p, x, s.ledger))
  {
    var a := WriteOwnership(p, Ownership(x.seller, x.snapshot, x.price));
    var b := WriteListing(p.listing, x.(downloads := x.downloads + 1));
    var c := WriteNotice(p, Sale(x.seller, x.price));
    var one := a(s);
    var two := b(one.state);
    var end := c(two.state).state;
    assert BagWrites(p, x) == [a] + ([b] + ([c] + []));
    NothingCommitsTo(end);
    FirstCommits(two.state, c, [], end);
    FirstCommits(one.state, b, [c] + [], end);
    FirstCommits(s, a, [b] + ([c] + []), end);
  }

  lemma PurchaseCommitsTo(s: Shop, p: Pair, x: Listing)
    requires p !in s.owned && Paid(s.ledger, p, x).Success?
    ensures CommitsTo(s, PriceWrites(s.ledger, p, x) + BagWrites(p, x), Bagged(s, p, x, Paid(s.ledger, p, x).value))
  {
    if x.price <= 0 {
      BagCommits(s, p, x);
      assert [] + BagWrites(p, x) == BagWrites(p, x);
    } else {
      var debit := Stage(s.ledger, {}, PurchaseMove(p, x)).value;
      var credit := Stage(s.ledger, if debit.Fresh? then {p.user} else {}, SaleMove(p, x)).value;
      TwoShardsCommit(s, p, x, debit, credit);
    }
  }

  lemma TwoShardsCommit(s: Shop, p: Pair, x: Listing, debit: Staging, credit: Staging)
    requires p !in s.owned
    ensures CommitsTo(s, ShardWrites(debit) + ShardWrites(credit) + BagWrites(p, x),
                      Bagged(s, p, x, Landed(Landed(s.ledger, debit), credit)))
  {
    var t := s.(ledger := Landed(s.ledger, debit));
    var u := t.(ledger := Landed(t.ledger, credit));
    BagCommits(u, p, x);
    ShardsCommit(t, credit, BagWrites(p, x), Bagged(s, p, x, u.ledger));
    ShardsCommit(s, debit, ShardWrites(credit) + BagWrites(p, x), Bagged(s, p, x, u.ledger));
    assert ShardWrites(debit) + ShardWrites(credit) + BagWrites(p, x)
        == ShardWrites(debit) + (ShardWrites(credit) + BagWrites(p, x));
  }

  /** The writes a publication adds after its fee. */
  function UpWrites(id: string, x: Listing, now: int): seq<ShopWrite> {
    [WriteListing(id, Up(x, now)), ClaimTitle(x.title, id)]
  }

  lemma PublicationCommitsTo(s: Shop, id: string, now: int)
    requires id in s.listings && (s.listings[id].feePaid || Stage(s.ledger, {}, FeeMove(id, s.listings[id])).Success?)
    ensures var x := s.listings[id];
            var l := if x.feePaid then s.ledger else Landed(s.ledger, Stage(s.ledger, {}, FeeMove(id, x)).value);
            CommitsTo(s, FeeWrites(s.ledger, id, x) + UpWrites(id, x, now), GoesUp(s, id, now, l))
  {
    var x := s.listings[id];
    if x.feePaid {
      TailCommits(s, id, Up(x, now), x.title);
      assert [] + UpWrites(id, x, now) == UpWrites(id, x, now);
    } else {
      var fee := Stage(s.ledger, {}, FeeMove(id, x)).value;
      TailCommits(s.(ledger := Landed(s.ledger, fee)), id, Up(x, now), x.title);
      ShardsCommit(s, fee, UpWrites(id, x, now), GoesUp(s, id, now, Landed(s.ledger, fee)));
    }
  }

  class InMemoryMarketplaceStore {
    var listings: map<string, Listing>
    var snapshots: map<string, Snapshot>
    var owned: map<Pair, Ownership>
    var sales: map<Pair, Sale>
    var likes: set<Pair>
    var titles: map<string, string>
    var blocks: map<BlockId, string>
    var log: seq<ModerationEvent>
    const shards: Stores.InMemoryShardStore

    constructor (shards: Stores.InMemoryShardStore)
      ensures this.shards == shards && View() == EMPTY_SHOP.(ledger := shards.View())
    {
      listings, snapshots, owned, sales, likes, titles, blocks, log := map[], map[], map[], map[], {}, map[], map[], [];
      this.shards := shards;
    }

    function View(): Shop
      reads this, shards
    {
      Shop(listings, snapshots, owned, sales, likes, titles, blocks, log, shards.View())
    }

    method Load(s: Shop)
      modifies this, shards
      ensures View() == s
    {
      listings, snapshots, owned, sales := s.listings, s.snapshots, s.owned, s.sales;
      likes, titles, blocks, log := s.likes, s.titles, s.blocks, s.log;
      shards.Load(s.ledger);
    }

    /** The normal end of the `with` block. */
    method Commit(transaction: InMemoryTransaction<Shop>) returns (ok: bool)
      modifies this, shards, transaction
      ensures (View(), ok) == Transactions.Committed(old(View()), old(transaction.writes), [])
    {
      var end: Shop;
      end, ok := transaction.Commit(View());
      Load(end);
    }

    /** A shard movement staged into the caller's transaction. */
    method StageShards(context: Stores.ShardTransactionContext, transaction: InMemoryTransaction<Shop>, m: Move)
      returns (r: Result<Staging, ShardError>)
      modifies context, context.transaction, transaction
      ensures r == Stage(shards.View(), old(context.changedWallets), m)
      ensures r.Success? ==> transaction.writes == old(transaction.writes) + ShardWrites(r.value)
      ensures r.Success? ==>
                context.changedWallets == old(context.changedWallets) + if r.value.Fresh? then {m.user} else {}
    {
      r := shards.ApplyInTransaction(context, m);
      if r.Success? && r.value.Fresh? {
        transaction.Add(Lifted(WriteOf(r.value.entry, r.value.wallet)));
      }
    }

    method CreateSnapshot(id: string, snapshot: Snapshot) returns (r: Answer)
      modifies this
      ensures (View(), r) == MarketModel.CreateSnapshot(old(View()), id, snapshot)
    {
      if id in snapshots {
        return Failure(SnapshotNotFound);
      }
      snapshots := snapshots[id := snapshot];
      return Success(true);
    }

    method ReleaseTitle(id: string, x: Listing)
      modifies this`titles
      ensures titles == Released(old(View()), id, x)
    {
      if x.title in titles && titles[x.title] == id {
        titles := titles - {x.title};
      }
    }

    method Delete(id: string, seller: string) returns (r: Answer)
      modifies this
      ensures (View(), r) == MarketModel.Delete(old(View()), id, seller)
    {
      if id !in listings || listings[id].seller != seller {
        return Failure(ListingNotFound);
      }
      var x := listings[id];
      if x.status.Deleted? {
        return Success(false);
      }
      listings := listings[id := x.(status := Deleted)];
      ReleaseTitle(id, x);
      return Success(true);
    }

    method Unpublish(id: string, seller: string) returns (r: Answer)
      modifies this
      ensures (View(), r) == MarketModel.Unpublish(old(View()), id, seller)
    {
      if id !in listings || listings[id].seller != seller {
        return Failure(ListingNotFound);
      }
      var x := listings[id];
      if !x.status.Published? {
        return Success(false);
      }
      listings := listings[id := x.(status := Unlisted)];
      ReleaseTitle(id, x);
      return Success(true);
    }

    /** The checks of `publish`, in its order, that end the call. */
    method CheckPublishable(id: string, seller: string) returns (stop: Option<Answer>)
      requires Mine(View(), id, seller)
      ensures stop.Some? ==> forall now :: MarketModel.Publish(View(), id, seller, now) == (View(), stop.value)
      ensures stop.None? ==> !listings[id].status.Published? && PublishBar(View(), id, seller).None?
    {
      var x := listings[id];
      if x.status.Deleted? {
        return Some(Failure(InvalidTransition));
      }
      if x.moderation.Removed? {
        return Some(Failure(ModeratedListing));
      }
      if x.status.Published? {
        return Some(Success(false));
      }
      if x.snapshot !in snapshots || snapshots[x.snapshot].seller != seller {
        return Some(Failure(SnapshotNotFound));
      }
      var source := snapshots[x.snapshot].source;
      if source != "" && BlockId(seller, x.contentType, source) in blocks {
        return Some(Failure(ModeratedListing));
      }
      if x.title in titles && titles[x.title] != id {
        return Some(Failure(TitleTaken));
      }
      return None;
    }

    method Publish(id: string, seller: string, now: int) returns (r: Answer)
      modifies this, shards
      ensures (View(), r) == MarketModel.Publish(old(View()), id, seller, now)
    {
      if id !in listings || listings[id].seller != seller {
        return Failure(ListingNotFound);
      }
      var stop := CheckPublishable(id, seller);
      if stop.Some? {
        return stop.value;
      }
      r := ChargeAndPublish(id, seller, now);
    }

    /** The transaction of `publish`. */
    method ChargeAndPublish(id: string, seller: string, now: int) returns (r: Answer)
      requires Mine(View(), id, seller) && !listings[id].status.Published? && PublishBar(View(), id, seller).None?
      modifies this, shards
      ensures (View(), r) == MarketModel.Publish(old(View()), id, seller, now)
    {
      ghost var s := View();
      var x := listings[id];
      var transaction := new InMemoryTransaction<Shop>();
      var charged := StageFee(transaction, id, x);
      if charged.Failure? {
        return Failure(Shards(charged.error));
      }
      PublicationCommitsTo(s, id, now);
      transaction.Add(WriteListing(id, Up(x, now)));
      transaction.Add(ClaimTitle(x.title, id));
      assert transaction.writes == FeeWrites(s.ledger, id, x) + UpWrites(id, x, now);
      var ok := Commit(transaction);
      return Success(true);
    }

    method StageFee(transaction: InMemoryTransaction<Shop>, id: string, x: Listing)
      returns (r: Result<bool, ShardError>)
      requires transaction.writes == []
      modifies transaction
      ensures r.Failure? ==> !x.feePaid && Stage(shards.View(), {}, FeeMove(id, x)) == Failure(r.error)
      ensures r.Success? ==> x.feePaid || Stage(shards.View(), {}, FeeMove(id, x)).Success?
      ensures r.Success? ==> transaction.writes == FeeWrites(shards.View(), id, x)
    {
      if x.feePaid {
        return Success(false);
      }
      var pending := new InMemoryTransaction<Ledger>();
      var context := new Stores.ShardTransactionContext(pending);
      var fee := StageShards(context, transaction, FeeMove(id, x));
      if fee.Failure? {
        return Failure(fee.error);
      }
      return Success(true);
    }

    method Acquire(id: string, buyer: string) returns (r: Answer)
      modifies this, shards
      ensures (View(), r) == MarketModel.Acquire(old(View()), id, buyer)
    {
      if id !in listings || !listings[id].Public() {
        return Failure(ListingNotFound);
      }
      var x, p := listings[id], Pair(buyer, id);
      if p in owned {
        return Success(false);
      }
      if x.seller == buyer {
        return Failure(SelfPurchase);
      }
      r := Buy(p, x);
    }

    /** The transaction of `acquire`. */
    method Buy(p: Pair, x: Listing) returns (r: Answer)
      requires p !in owned
      modifies this, shards
      ensures var paid := Paid(old(shards.View()), p, x);
              (View(), r) == if paid.Failure? then (old(View()), Failure(Shards(paid.error)))
                             else (Bagged(old(View()), p, x, paid.value), Success(true))
    {
      ghost var s := View();
      var transaction := new InMemoryTransaction<Shop>();
      var paid := StagePrice(transaction, p, x);
      if paid.Failure? {
        return Failure(Shards(paid.error));
      }
      PurchaseCommitsTo(s, p, x);
      transaction.Add(WriteOwnership(p, Ownership(x.seller, x.snapshot, x.price)));
      transaction.Add(WriteListing(p.listing, x.(downloads := x.downloads + 1)));
      transaction.Add(WriteNotice(p, Sale(x.seller, x.price)));
      assert transaction.writes == PriceWrites(s.ledger, p, x) + BagWrites(p, x);
      var ok := Commit(transaction);
      return Success(true);
    }

    method StagePrice(transaction: InMemoryTransaction<Shop>, p: Pair, x: Listing) returns (r: Result<bool, ShardError>)
      requires transaction.writes == []
      modifies transaction
      ensures r.Failure? ==> Paid(shards.View(), p, x) == Failure(r.error)
      ensures r.Success? ==> Paid(shards.View(), p, x).Success?
      ensures r.Success? ==> transaction.writes == PriceWrites(shards.View(), p, x)
    {
      if x.price <= 0 {
        return Success(false);
      }
      var pending := new InMemoryTransaction<Ledger>();
      var context := new Stores.ShardTransactionContext(pending);
      var debit := StageShards(context, transaction, PurchaseMove(p, x));
      if debit.Failure? {
        return Failure(debit.error);
      }
      var credit := StageShards(context, transaction, SaleMove(p, x));
      if credit.Failure? {
        return Failure(credit.error);
      }
      return Success(true);
    }

    method Like(id: string, user: string) returns (r: Answer)
      modifies this
      ensures (View(), r) == MarketModel.Like(old(View()), id, user)
    {
      if id !in listings || !listings[id].Public() {
        return Failure(ListingNotFound);
      }
      var x, p := listings[id], Pair(user, id);
      if p in likes {
        return if x.likes < 0 then Failure(LikeCountInconsistent) else Success(false);
      }
      if x.seller == user {
        return Failure(SelfLike);
      }
      if x.likes < 0 {
        return Failure(LikeCountInconsistent);
      }
      likes := likes + {p};
      listings := listings[id := x.(likes := x.likes + 1)];
      return Success(true);
    }

    method Unlike(id: string, user: string) returns (r: Answer)
      modifies this
      ensures (View(), r) == MarketModel.Unlike(old(View()), id, user)
    {
      if id !in listings || listings[id].status.Draft? {
        return Failure(ListingNotFound);
      }
      var x, p := listings[id], Pair(user, id);
      if x.likes < 0 {
        return Failure(LikeCountInconsistent);
      }
      if p !in likes {
        return Success(false);
      }
      if x.likes == 0 {
        return Failure(LikeCountInconsistent);
      }
      likes := likes - {p};
      listings := listings[id := x.(likes := x.likes - 1)];
      return Success(true);
    }

    method BlockSource(id: string, x: Listing)
      modifies this`blocks
      ensures var b := BlockOf(old(View()), x);
              blocks == if b.Some? then old(blocks)[b.value := id] else old(blocks)
    {
      if x.snapshot !in snapshots || snapshots[x.snapshot].source == "" {
        return;
      }
      blocks := blocks[BlockId(x.seller, x.contentType, snapshots[x.snapshot].source) := id];
    }

    /** A block made by another listing is left alone. */
    method UnblockSource(id: string, x: Listing)
      modifies this`blocks
      ensures blocks == Unblocked(old(View()), id, x)
    {
      if x.snapshot !in snapshots || snapshots[x.snapshot].source == "" {
        return;
      }
      var key := BlockId(x.seller, x.contentType, snapshots[x.snapshot].source);
      if key in blocks && blocks[key] == id {
        blocks := blocks - {key};
      }
    }

    /** The listing, the block and the log are written inside the `with` block,
        where the notification is created, and the compensation when it ends. */
    method Takedown(id: string, actor: string, notified: bool) returns (r: Answer)
      modifies this, shards
      ensures (View(), r) == if notified then MarketModel.Takedown(old(View()), id, actor)
                             else UnnoticedTakedown(old(View()), id, actor)
    {
      if id !in listings {
        return Failure(ListingNotFound);
      }
      var x := listings[id];
      if x.moderation.Removed? {
        return Success(false);
      }
      ghost var s := View();
      var transaction := new InMemoryTransaction<Ledger>();
      var context := new Stores.ShardTransactionContext(transaction);
      var paid := shards.ApplyInTransaction(context, CompensationMove(id, x));
      if paid.Failure? {
        return Failure(Shards(paid.error));
      }
      listings := listings[id := x.(moderation := Removed)];
      BlockSource(id, x);
      log := log + [ModerationEvent(id, TookDown, actor)];
      if !notified {
        return Failure(NotificationFailed);
      }
      LandedCommits(shards.View(), paid.value);
      var ok := shards.Commit(transaction);
      return Success(true);
    }

    method Restore(id: string, actor: string) returns (r: Answer)
      modifies this
      ensures (View(), r) == MarketModel.Restore(old(View()), id, actor)
    {
      if id !in listings {
        return Failure(ListingNotFound);
      }
      var x := listings[id];
      if x.status.Deleted? {
        return Failure(TerminalListing);
      }
      if !x.moderation.Removed? {
        return Failure(NotModerated);
      }
      listings := listings[id := x.(moderation := Active)];
      UnblockSource(id, x);
      log := log + [ModerationEvent(id, Restored, actor)];
      return Success(true);
    }
  }

  /** Committing one staged movement, or none. */
  lemma LandedCommits(l: Ledger, st: Staging)
    ensures st.Fresh? ==> Transactions.Committed(l, [WriteOf(st.entry, st.wallet)], []) == (Landed(l, st), true)
    ensures st.Duplicate? ==> Transactions.Committed(l, [], []) == (Landed(l, st), true)
  {
    if st.Fresh? {
      var write := WriteOf(st.entry, st.wallet);
      assert [write][1..] == [];
      assert Transactions.Committed(l, [write], []) == Transactions.Committed(write(l).state, [], [write(l).undo]);
    }
  }
}
