/** The writes that publishing and buying add to the ledger's transaction, and
    that a commit of them is all or nothing across the ledger, the listings, the
    title claims and the ownerships. */
module MarketTransactions {
  import opened Wrappers
  import opened LedgerModel
  import opened LedgerInvariant
  import opened Transactions
  import opened StagedMoves
  import opened MarketModel
  import opened MarketBooks
  import Ledgers = LedgerRuns

  type ShopWrite = Transactions.Write<Shop>

  /** A write of the shard store, in a transaction over the whole shop. */
  function Lifted(write: Transactions.Write<Ledger>): ShopWrite {
    (s: Shop) =>
         match write(s.ledger)
         case Raises => Raises
         case Applied(l, undo) => Applied(s.(ledger := l), (s': Shop) => s'.(ledger := undo(s'.ledger)))
  }

  function ShardWrites(st: Staging): seq<ShopWrite> {
    if st.Fresh? then [Lifted(WriteOf(st.entry, st.wallet))] else []
  }

  /** Replace a listing; the undo puts the previous one back. */
  function WriteListing(id: string, x: Listing): ShopWrite {
    (s: Shop) =>
         var previous := s.listings;
         Applied(SetListing(s, id, x),
                 (s': Shop) => if id in previous then SetListing(s', id, previous[id]) else s')
  }

  /** Claim a title; the undo removes the claim. */
  function ClaimTitle(key: string, id: string): ShopWrite {
    (s: Shop) => Applied(s.(titles := s.titles[key := id]), (s': Shop) => s'.(titles := s'.titles - {key}))
  }

  /** `create` semantics: an ownership that is already there raises. */
  function WriteOwnership(p: Pair, o: Ownership): ShopWrite {
    (s: Shop) =>
         if p in s.owned then Raises
         else Applied(s.(owned := s.owned[p := o]), (s': Shop) => s'.(owned := s'.owned - {p}))
  }

  /** Creating the notification again is harmless, and nothing takes it back: it
      is the last write. */
  function WriteNotice(p: Pair, sale: Sale): ShopWrite {
    (s: Shop) => Applied(s.(sales := s.sales[p := sale]), (s': Shop) => s')
  }

  lemma ShardWriteIsReversible(s: Shop, e: Entry, w: Wallet)
    requires Indexed(s.ledger) && e.key.Some? && e.key.value !in s.ledger.applied
    ensures var r := Lifted(WriteOf(e, w))(s);
            r.Applied? && r.state == s.(ledger := LedgerModel.Write(s.ledger, e, w)) && r.undo(r.state) == s
  {
    WriteIsReversible(s.ledger, e, w);
  }

  lemma ListingWriteIsReversible(s: Shop, id: string, x: Listing)
    requires id in s.listings
    ensures var r := WriteListing(id, x)(s);
            r.Applied? && r.state == SetListing(s, id, x) && r.undo(r.state) == s
  {
    assert s.listings[id := x][id := s.listings[id]] == s.listings;
  }

  /** The undo of a title claim is exact because the title was free before. */
  lemma TitleClaimIsReversible(s: Shop, key: string, id: string)
    requires key !in s.titles
    ensures var r := ClaimTitle(key, id)(s);
            r.Applied? && r.state == s.(titles := s.titles[key := id]) && r.undo(r.state) == s
  {
    assert s.titles[key := id] - {key} == s.titles;
  }

  lemma OwnershipWriteIsReversible(s: Shop, p: Pair, o: Ownership)
    requires p !in s.owned
    ensures var r := WriteOwnership(p, o)(s);
            r.Applied? && r.state == s.(owned := s.owned[p := o]) && r.undo(r.state) == s
  {
    assert s.owned[p := o] - {p} == s.owned;
  }

  // Publication.

  /** The listing as `publish` writes it. */
  function Up(x: Listing, now: int): Listing {
    x.(status := Published, feePaid := true, publishedAt := if x.publishedAt.Some? then x.publishedAt else Some(now))
  }

  function PublishWrites(s: Shop, id: string, now: int, fee: seq<ShopWrite>): seq<ShopWrite>
    requires id in s.listings
  {
    fee + ([WriteListing(id, Up(s.listings[id], now))] + ([ClaimTitle(s.listings[id].title, id)] + []))
  }

  lemma PublishTail(s: Shop, id: string, now: int)
    requires id in s.listings && s.listings[id].title !in s.titles
    ensures var writes := PublishWrites(s, id, now, []);
            && Undoable(s, writes) && Transactions.Runs(s, writes)
            && Outcome(s, writes) == GoesUp(s, id, now, s.ledger)
  {
    var x := s.listings[id];
    var up := WriteListing(id, Up(x, now));
    ListingWriteIsReversible(s, id, Up(x, now));
    var t := SetListing(s, id, Up(x, now));
    TitleClaimIsReversible(t, x.title, id);
    Prepended(t, ClaimTitle(x.title, id), []);
    Prepended(s, up, [ClaimTitle(x.title, id)] + []);
    assert PublishWrites(s, id, now, []) == [up] + ([ClaimTitle(x.title, id)] + []);
  }

  lemma PublishRuns(s: Shop, id: string, now: int, fee: Staging)
    requires id in s.listings && s.listings[id].title !in s.titles
    requires fee.Fresh? ==> Indexed(s.ledger) && fee.entry.key.Some? && fee.entry.key.value !in s.ledger.applied
    ensures var writes := PublishWrites(s, id, now, ShardWrites(fee));
            && Undoable(s, writes) && Transactions.Runs(s, writes)
            && Outcome(s, writes) == GoesUp(s, id, now, Landed(s.ledger, fee))
  {
    if fee.Fresh? {
      var t := s.(ledger := Landed(s.ledger, fee));
      ShardWriteIsReversible(s, fee.entry, fee.wallet);
      PublishTail(t, id, now);
      Prepended(s, Lifted(WriteOf(fee.entry, fee.wallet)), PublishWrites(t, id, now, []));
      assert PublishWrites(s, id, now, ShardWrites(fee))
          == [Lifted(WriteOf(fee.entry, fee.wallet))] + PublishWrites(t, id, now, []);
    } else {
      PublishTail(s, id, now);
    }
  }

  /** What the fee adds: nothing once it was paid. */
  function FeeWrites(l: Ledger, id: string, x: Listing): seq<ShopWrite>
    requires x.feePaid || Stage(l, {}, FeeMove(id, x)).Success?
  {
    if x.feePaid then [] else ShardWrites(Stage(l, {}, FeeMove(id, x)).value)
  }

  function FeePaidLedger(l: Ledger, id: string, x: Listing): Ledger
    requires x.feePaid || Stage(l, {}, FeeMove(id, x)).Success?
  {
    if x.feePaid then l else Landed(l, Stage(l, {}, FeeMove(id, x)).value)
  }

  lemma PublicationRuns(s: Shop, id: string, now: int)
    requires Inv(s) && id in s.listings && s.listings[id].title !in s.titles
    requires s.listings[id].feePaid || Stage(s.ledger, {}, FeeMove(id, s.listings[id])).Success?
    ensures var x := s.listings[id];
            var writes := PublishWrites(s, id, now, FeeWrites(s.ledger, id, x));
            && Undoable(s, writes) && Transactions.Runs(s, writes)
            && Outcome(s, writes) == GoesUp(s, id, now, FeePaidLedger(s.ledger, id, x))
  {
    if s.listings[id].feePaid {
      PublishTail(s, id, now);
    } else {
      assert Core(s.ledger) by { assert Ledgers.Sound(s.ledger); }
      CoreIsIndexed(s.ledger);
      PublishRuns(s, id, now, Stage(s.ledger, {}, FeeMove(id, s.listings[id])).value);
    }
  }

  /** Publication, the first and every later one, commits completely, and if any
      write raises - before, between or after its own - neither the fee nor the
      listing nor the title remains. */
  lemma PublishIsAllOrNothing(s: Shop, id: string, now: int, at: nat, raising: ShopWrite)
    requires Inv(s) && id in s.listings && s.listings[id].title !in s.titles
    requires s.listings[id].feePaid || Stage(s.ledger, {}, FeeMove(id, s.listings[id])).Success?
    requires forall t :: raising(t).Raises?
    ensures var x := s.listings[id];
            var writes := PublishWrites(s, id, now, FeeWrites(s.ledger, id, x));
            && Transactions.Committed(s, writes, []) == (GoesUp(s, id, now, FeePaidLedger(s.ledger, id, x)), true)
            && (at <= |writes| ==>
                  Transactions.Committed(s, writes[..at] + [raising] + writes[at..], []) == (s, false))
  {
    PublicationRuns(s, id, now);
    var writes := PublishWrites(s, id, now, FeeWrites(s.ledger, id, s.listings[id]));
    AllOrNothing(s, writes);
    if at <= |writes| {
      NothingCommits(s, writes, at, raising);
    }
  }

  // Purchase.

  /** Everything a purchase writes before the notification. */
  function PurchaseWrites(s: Shop, p: Pair, shards: seq<ShopWrite>): seq<ShopWrite>
    requires p.listing in s.listings
  {
    var x := s.listings[p.listing];
    shards + ([WriteOwnership(p, Ownership(x.seller, x.snapshot, x.price))]
              + ([WriteListing(p.listing, x.(downloads := x.downloads + 1))] + []))
  }

  /** The shop after a purchase's own writes, the notification not yet among them. */
  function Unannounced(s: Shop, p: Pair, l: Ledger): Shop
    requires p.listing in s.listings
  {
    var x := s.listings[p.listing];
    SetListing(s, p.listing, x.(downloads := x.downloads + 1))
      .(owned := s.owned[p := Ownership(x.seller, x.snapshot, x.price)], ledger := l)
  }

  lemma PurchaseTail(s: Shop, p: Pair)
    requires p.listing in s.listings && p !in s.owned
    ensures var writes := PurchaseWrites(s, p, []);
            && Undoable(s, writes) && Transactions.Runs(s, writes)
            && Outcome(s, writes) == Unannounced(s, p, s.ledger)
  {
    var x := s.listings[p.listing];
    var o := Ownership(x.seller, x.snapshot, x.price);
    var counted := x.(downloads := x.downloads + 1);
    OwnershipWriteIsReversible(s, p, o);
    var t := s.(owned := s.owned[p := o]);
    ListingWriteIsReversible(t, p.listing, counted);
    Prepended(t, WriteListing(p.listing, counted), []);
    Prepended(s, WriteOwnership(p, o), [WriteListing(p.listing, counted)] + []);
    assert PurchaseWrites(s, p, []) == [WriteOwnership(p, o)] + ([WriteListing(p.listing, counted)] + []);
  }

  /** The writes run from `s` to `end` and can be taken back. */
  ghost predicate Yields(s: Shop, writes: seq<ShopWrite>, end: Shop) {
    Undoable(s, writes) && Transactions.Runs(s, writes) && Outcome(s, writes) == end
  }

  lemma WithShardWrite(s: Shop, st: Staging, rest: seq<ShopWrite>, end: Shop)
    requires st.Fresh? && Indexed(s.ledger) && st.entry.key.Some? && st.entry.key.value !in s.ledger.applied
    requires Yields(s.(ledger := Landed(s.ledger, st)), rest, end)
    ensures Yields(s, [Lifted(WriteOf(st.entry, st.wallet))] + rest, end)
  {
    ShardWriteIsReversible(s, st.entry, st.wallet);
    Prepended(s, Lifted(WriteOf(st.entry, st.wallet)), rest);
  }

  lemma CreditRuns(t: Shop, p: Pair, credit: Staging)
    requires p.listing in t.listings && p !in t.owned && credit.Fresh? && Indexed(t.ledger)
    requires credit.entry.key.Some? && credit.entry.key.value !in t.ledger.applied
    ensures Yields(t, PurchaseWrites(t, p, ShardWrites(credit)), Unannounced(t, p, Landed(t.ledger, credit)))
  {
    var u := t.(ledger := Landed(t.ledger, credit));
    PurchaseTail(u, p);
    WithShardWrite(t, credit, PurchaseWrites(u, p, []), Unannounced(u, p, u.ledger));
    WritesSplit(t, u, p, credit, []);
    assert ShardWrites(credit) + [] == ShardWrites(credit);
  }

  lemma WritesSplit(s: Shop, t: Shop, p: Pair, first: Staging, rest: seq<ShopWrite>)
    requires p.listing in s.listings && t == s.(ledger := t.ledger) && first.Fresh?
    ensures PurchaseWrites(s, p, ShardWrites(first) + rest)
         == [Lifted(WriteOf(first.entry, first.wallet))] + PurchaseWrites(t, p, rest)
  {
  }

  lemma LandedStaysIndexed(l: Ledger, st: Staging)
    requires Indexed(l)
    ensures Indexed(Landed(l, st))
  {
  }

  /** With the two shard writes in front. */
  lemma PurchaseRuns(s: Shop, p: Pair, debit: Staging, credit: Staging)
    requires p.listing in s.listings && p !in s.owned && debit.Fresh? && credit.Fresh? && Indexed(s.ledger)
    requires debit.entry.key.Some? && debit.entry.key.value !in s.ledger.applied
    requires credit.entry.key.Some? && credit.entry.key.value !in s.ledger.applied
    requires credit.entry.key != debit.entry.key
    ensures Yields(s, PurchaseWrites(s, p, ShardWrites(debit) + ShardWrites(credit)),
                   Unannounced(s, p, Landed(Landed(s.ledger, debit), credit)))
  {
    var t := s.(ledger := Landed(s.ledger, debit));
    LandedStaysIndexed(s.ledger, debit);
    CreditRuns(t, p, credit);
    WithShardWrite(s, debit, PurchaseWrites(t, p, ShardWrites(credit)), Unannounced(t, p, Landed(t.ledger, credit)));
    WritesSplit(s, t, p, debit, ShardWrites(credit));
  }

  /** What comes out of a purchase whose last write is the notification. */
  lemma NoticeCommits(s: Shop, writes: seq<ShopWrite>, p: Pair, sale: Sale)
    requires Undoable(s, writes) && Transactions.Runs(s, writes)
    ensures var end := Outcome(s, writes);
            var noticed := end.(sales := end.sales[p := sale]);
            Transactions.Committed(s, writes + [WriteNotice(p, sale)], []) == (noticed, true)
  {
    CommitThenLast(s, writes, WriteNotice(p, sale), [], s);
  }

  lemma NothingCommits(s: Shop, writes: seq<ShopWrite>, at: nat, raising: ShopWrite)
    requires Undoable(s, writes) && at <= |writes| && forall t :: raising(t).Raises?
    ensures Transactions.Committed(s, writes[..at] + [raising] + writes[at..], []) == (s, false)
  {
    UndoablePrefix(s, writes, at, raising);
    AllOrNothing(s, writes[..at] + [raising] + writes[at..]);
  }

  lemma Announced(s: Shop, p: Pair, l: Ledger)
    requires p.listing in s.listings
    ensures var x, end := s.listings[p.listing], Unannounced(s, p, l);
            end.(sales := end.sales[p := Sale(x.seller, x.price)]) == Bagged(s, p, x, l)
  {
  }

  /** The two staged movements of a purchase by somebody who does not own it yet. */
  lemma PurchaseStages(s: Shop, p: Pair)
    requires Inv(s) && p.listing in s.listings && p !in s.owned
    requires s.listings[p.listing].seller != p.user && s.listings[p.listing].price > 0
    requires Paid(s.ledger, p, s.listings[p.listing]).Success?
    ensures var x := s.listings[p.listing];
            var debit, credit := Stage(s.ledger, {}, PurchaseMove(p, x)), Stage(s.ledger, {p.user}, SaleMove(p, x));
            && debit.Success? && debit.value.Fresh? && credit.Success? && credit.value.Fresh?
            && debit.value.entry.key == Some(PurchaseMove(p, x).Key())
            && credit.value.entry.key == Some(SaleMove(p, x).Key())
            && PurchaseMove(p, x).Key() !in s.ledger.applied && SaleMove(p, x).Key() !in s.ledger.applied
            && Paid(s.ledger, p, x).value == Landed(Landed(s.ledger, debit.value), credit.value)
            && Indexed(s.ledger)
  {
    assert Core(s.ledger) by { assert Ledgers.Sound(s.ledger); }
    CoreIsIndexed(s.ledger);
    PurchaseIsFresh(s, p);
    PaidIsTwoMoves(s.ledger, p, s.listings[p.listing]);
  }

  /** The shard writes of a purchase. */
  function PriceWrites(l: Ledger, p: Pair, x: Listing): seq<ShopWrite>
    requires Paid(l, p, x).Success?
  {
    if x.price <= 0 then []
    else
      var debit := Stage(l, {}, PurchaseMove(p, x)).value;
      var credit := Stage(l, if debit.Fresh? then {p.user} else {}, SaleMove(p, x)).value;
      ShardWrites(debit) + ShardWrites(credit)
  }

  lemma PriceRuns(s: Shop, p: Pair)
    requires Inv(s) && p.listing in s.listings && p !in s.owned && s.listings[p.listing].seller != p.user
    requires Paid(s.ledger, p, s.listings[p.listing]).Success?
    ensures var x := s.listings[p.listing];
            Yields(s, PurchaseWrites(s, p, PriceWrites(s.ledger, p, x)), Unannounced(s, p, Paid(s.ledger, p, x).value))
  {
    var x := s.listings[p.listing];
    if x.price <= 0 {
      PurchaseTail(s, p);
    } else {
      PurchaseStages(s, p);
      var debit := Stage(s.ledger, {}, PurchaseMove(p, x)).value;
      var credit := Stage(s.ledger, {p.user}, SaleMove(p, x)).value;
      PurchaseRuns(s, p, debit, credit);
    }
  }

  /** A purchase, free or not, commits completely, notification included. */
  lemma PurchaseCommits(s: Shop, p: Pair)
    requires Inv(s) && p.listing in s.listings && p !in s.owned && s.listings[p.listing].seller != p.user
    requires Paid(s.ledger, p, s.listings[p.listing]).Success?
    ensures var x := s.listings[p.listing];
            var writes := PurchaseWrites(s, p, PriceWrites(s.ledger, p, x));
            Transactions.Committed(s, writes + [WriteNotice(p, Sale(x.seller, x.price))], [])
            == (Bagged(s, p, x, Paid(s.ledger, p, x).value), true)
  {
    var x := s.listings[p.listing];
    PriceRuns(s, p);
    NoticeCommits(s, PurchaseWrites(s, p, PriceWrites(s.ledger, p, x)), p, Sale(x.seller, x.price));
    Announced(s, p, Paid(s.ledger, p, x).value);
  }

  /** If any write of a purchase raises, wherever it stands and the notification
      itself included, then no shard has moved, no ownership exists and nothing
      was counted. */
  lemma FailedPurchaseLeavesNothing(s: Shop, p: Pair, at: nat, raising: ShopWrite)
    requires Inv(s) && p.listing in s.listings && p !in s.owned && s.listings[p.listing].seller != p.user
    requires Paid(s.ledger, p, s.listings[p.listing]).Success? && forall t :: raising(t).Raises?
    ensures var writes := PurchaseWrites(s, p, PriceWrites(s.ledger, p, s.listings[p.listing]));
            at <= |writes| ==>
              Transactions.Committed(s, writes[..at] + [raising] + writes[at..], []) == (s, false)
  {
    PriceRuns(s, p);
    var writes := PurchaseWrites(s, p, PriceWrites(s.ledger, p, s.listings[p.listing]));
    if at <= |writes| {
      NothingCommits(s, writes, at, raising);
    }
  }
}
