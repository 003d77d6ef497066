/** From upload to download (app/marketplace/service.py, create_snapshot and
    template): marketplace and object storage together. The snapshot document that
    ends an upload is the snapshot that listings refer to. */
module Delivery {
  import opened Wrappers
  import opened MarketModel
  import opened MarketInvariant
  import opened LedgerModel
  import opened LedgerAnswers
  import Answers = MarketAnswers
  import Books = MarketBooks
  import Runs = LedgerRuns
  import Theorems = MarketTheorems
  import Assets = SnapshotAssets

  datatype System = System(shop: Shop, store: Assets.World)

  /** Anything in the marketplace but the creation of a snapshot. */
  ghost predicate Trades(a: System, b: System) {
    exists op: Op :: !op.DoSnapshot? && ValidOp(a.shop, op) && b == a.(shop := Step(a.shop, op).0)
  }

  /** A document that was just written: its checksum makes it complete. */
  function Entered(shop: Shop, id: string, seller: string, source: string): Shop {
    CreateSnapshot(shop, id, Snapshot(seller, source, true)).0
  }

  ghost predicate Enters(a: System, b: System, id: string, source: string) {
    && id !in a.store.documents && id in b.store.documents
    && b.store.documents.Keys == a.store.documents.Keys + {id}
    && b.shop == Entered(a.shop, id, b.store.documents[id].seller, source)
  }

  /** One step of one upload. */
  ghost predicate Stores(a: System, b: System) {
    && Assets.Next(a.store, b.store)
    && if b.store.documents == a.store.documents then b.shop == a.shop
       else exists id, source :: Enters(a, b, id, source)
  }

  ghost predicate Next(a: System, b: System) { Trades(a, b) || Stores(a, b) }

  ghost predicate StepAt(ss: seq<System>, n: int)
    requires 0 <= n < |ss| - 1
  {
    Next(ss[n], ss[n + 1])
  }

  /** Any interleaving of trading and uploads that fail or stop halfway. */
  ghost predicate Behaviour(ss: seq<System>) {
    && |ss| > 0 && ss[0] == System(EMPTY_SHOP, Assets.EMPTY_WORLD)
    && forall n :: 0 <= n < |ss| - 1 ==> StepAt(ss, n)
  }

  /** The two sides know the same snapshots. */
  ghost predicate Linked(a: System) {
    && a.shop.snapshots.Keys == a.store.documents.Keys
    && forall id :: id in a.shop.snapshots ==>
         a.shop.snapshots[id].complete && a.shop.snapshots[id].seller == a.store.documents[id].seller
  }

  ghost predicate Inv(a: System) { Books.Inv(a.shop) && Assets.Inv(a.store) && Linked(a) }

  /** What a step leaves as it was. */
  ghost predicate Kept(a: System, b: System) {
    Theorems.AllEvolve(a.shop, b.shop) && Assets.Kept(a.store, b.store)
  }

  lemma TradesKeepSnapshots(s: Shop, op: Op)
    requires !op.DoSnapshot?
    ensures Step(s, op).0.snapshots == s.snapshots
  {
    if SellerOp(op) {
      SellerFrame(s, op);
    } else if BuyerOp(op) {
      BuyerFrame(s, op);
    } else if OperatorOp(op) {
      OperatorFrame(s, op);
    }
  }

  lemma TradeKeeps(a: System, b: System)
    requires Inv(a) && Trades(a, b)
    ensures Inv(b) && Kept(a, b)
  {
    var op: Op :| !op.DoSnapshot? && ValidOp(a.shop, op) && b == a.(shop := Step(a.shop, op).0);
    TradesKeepSnapshots(a.shop, op);
    Books.StepKeepsInv(a.shop, op);
    Theorems.StepEvolves(a.shop, op);
  }

  lemma EntryLinks(a: System, b: System, id: string, source: string)
    requires Linked(a) && Enters(a, b, id, source)
    requires forall i :: i in a.store.documents ==> b.store.documents[i] == a.store.documents[i]
    ensures Linked(b)
  {
    assert b.shop.snapshots == a.shop.snapshots[id := Snapshot(b.store.documents[id].seller, source, true)];
  }

  lemma EntryEvolves(shop: Shop, id: string, seller: string, source: string)
    requires Books.Inv(shop)
    ensures Books.Inv(Entered(shop, id, seller, source)) && Theorems.AllEvolve(shop, Entered(shop, id, seller, source))
  {
    var op := DoSnapshot(id, Snapshot(seller, source, true));
    assert Step(shop, op).0 == Entered(shop, id, seller, source);
    Books.StepKeepsInv(shop, op);
    Theorems.StepEvolves(shop, op);
  }

  lemma NothingEvolves(shop: Shop)
    ensures Theorems.AllEvolve(shop, shop)
  {
  }

  lemma DocumentsStay(w: Assets.World, v: Assets.World)
    requires Assets.Kept(w, v)
    ensures forall i :: i in w.documents ==> i in v.documents && v.documents[i] == w.documents[i]
  {
  }

  lemma StoreKeeps(a: System, b: System)
    requires Inv(a) && Stores(a, b)
    ensures Inv(b) && Kept(a, b)
  {
    Assets.NextKeeps(a.store, b.store);
    DocumentsStay(a.store, b.store);
    if b.store.documents != a.store.documents {
      var id, source :| Enters(a, b, id, source);
      EntryLinks(a, b, id, source);
      EntryEvolves(a.shop, id, b.store.documents[id].seller, source);
    } else {
      NothingEvolves(a.shop);
    }
  }

  lemma NextKeeps(a: System, b: System)
    requires Inv(a) && Next(a, b)
    ensures Inv(b) && Kept(a, b)
  {
    if Trades(a, b) {
      TradeKeeps(a, b);
    } else {
      StoreKeeps(a, b);
    }
  }

  lemma StartInv(a: System)
    requires a == System(EMPTY_SHOP, Assets.EMPTY_WORLD)
    ensures Inv(a)
  {
    Books.EmptyInv();
  }

  ghost predicate InvAt(ss: seq<System>, n: nat)
    requires n < |ss|
  {
    Inv(ss[n])
  }

  ghost predicate KeptFrom(ss: seq<System>, m: nat, n: nat)
    requires m < |ss| && n < |ss|
  {
    Kept(ss[m], ss[n])
  }

  ghost predicate KeptAt(ss: seq<System>, n: nat)
    requires n + 1 < |ss|
  {
    KeptFrom(ss, n, n + 1)
  }

  /** What one step of a run gives. */
  ghost predicate GoodAt(ss: seq<System>, n: nat)
    requires n + 1 < |ss|
  {
    InvAt(ss, n) ==> InvAt(ss, n + 1) && KeptAt(ss, n)
  }

  lemma StepIsGood(ss: seq<System>, n: nat)
    requires n + 1 < |ss| && StepAt(ss, n)
    ensures GoodAt(ss, n)
  {
    if InvAt(ss, n) {
      NextKeeps(ss[n], ss[n + 1]);
    }
  }

  lemma StepsAreGood(ss: seq<System>)
    requires Behaviour(ss)
    ensures InvAt(ss, 0) && forall n :: 0 <= n < |ss| - 1 ==> GoodAt(ss, n)
  {
    StartInv(ss[0]);
    forall n | 0 <= n < |ss| - 1 ensures GoodAt(ss, n) {
      StepIsGood(ss, n);
    }
  }

  lemma {:induction false} GoodRunKeepsInv(ss: seq<System>, n: nat)
    requires n < |ss| && InvAt(ss, 0) && forall k :: 0 <= k < |ss| - 1 ==> GoodAt(ss, k)
    ensures InvAt(ss, n)
    decreases n
  {
    if n > 0 {
      GoodRunKeepsInv(ss, n - 1);
      assert GoodAt(ss, n - 1);
    }
  }

  lemma KeptOn(ss: seq<System>, m: nat, n: nat)
    requires m <= n && n + 1 < |ss| && KeptFrom(ss, m, n) && KeptAt(ss, n)
    ensures KeptFrom(ss, m, n + 1)
  {
    Theorems.EvolvingIsTransitive(ss[m].shop, ss[n].shop, ss[n + 1].shop);
    Assets.KeptIsTransitive(ss[m].store, ss[n].store, ss[n + 1].store);
  }

  lemma GoodStepsKeep(ss: seq<System>)
    requires |ss| > 0 && InvAt(ss, 0) && forall k :: 0 <= k < |ss| - 1 ==> GoodAt(ss, k)
    ensures forall k :: 0 <= k < |ss| - 1 ==> KeptAt(ss, k)
  {
    forall k | 0 <= k < |ss| - 1 ensures KeptAt(ss, k) {
      GoodRunKeepsInv(ss, k);
      assert GoodAt(ss, k);
    }
  }

  lemma NothingMoves(ss: seq<System>, m: nat)
    requires m < |ss|
    ensures KeptFrom(ss, m, m)
  {
    NothingEvolves(ss[m].shop);
  }

  lemma {:induction false} KeptThroughout(ss: seq<System>, m: nat, n: nat)
    requires m <= n < |ss| && forall k :: 0 <= k < |ss| - 1 ==> KeptAt(ss, k)
    ensures KeptFrom(ss, m, n)
    decreases n
  {
    if m == n {
      NothingMoves(ss, m);
    } else {
      KeptThroughout(ss, m, n - 1);
      assert KeptAt(ss, n - 1);
      KeptOn(ss, m, n - 1);
    }
  }

  /** Marketplace and storage are in order in every state, and between any two
      states what was documented and bought stays. */
  lemma RunKeeps(ss: seq<System>, m: nat, n: nat)
    requires Behaviour(ss) && m <= n < |ss|
    ensures InvAt(ss, m) && InvAt(ss, n) && KeptFrom(ss, m, n)
  {
    StepsAreGood(ss);
    GoodRunKeepsInv(ss, m);
    GoodRunKeepsInv(ss, n);
    GoodStepsKeep(ss);
    KeptThroughout(ss, m, n);
  }

  function Read(objects: map<Assets.Key, Assets.Content>, key: Assets.Key): Option<Assets.Content> {
    if key in objects then Some(objects[key]) else None
  }

  /** `template`: the bytes of the manifest, for the seller and for owners. */
  function Downloaded(a: System, id: string, user: string): Option<Assets.Content> {
    match Template(a.shop, id, user)
    case Failure(_) => None
    case Success(snapshot) => Read(a.store.objects, Assets.ManifestKey(snapshot))
  }

  /** `template_asset`: one image of it, under the same rule. */
  function DownloadedAsset(a: System, id: string, user: string, asset: string): Option<Assets.Content> {
    match Template(a.shop, id, user)
    case Failure(_) => None
    case Success(snapshot) => Read(a.store.objects, Assets.AssetKey(snapshot, asset))
  }

  /** What is stored under a snapshot's keys is what belongs to the snapshot. */
  lemma ReadsOwn(objects: map<Assets.Key, Assets.Content>, key: Assets.Key)
    ensures Read(objects, key) == Read(Assets.Of(objects, key.snapshot), key)
  {
    assert key in Assets.Of(objects, key.snapshot) <==> key in objects;
  }

  /** The manifest, the images it shows, and no other image. */
  lemma PackageReads(id: string, p: Assets.Package, asset: string)
    ensures Read(Assets.Objects(id, p), Assets.ManifestKey(id)) == Some(p.manifest)
    ensures Read(Assets.Objects(id, p), Assets.AssetKey(id, asset))
         == if asset in p.assets then Some(p.assets[asset]) else None
  {
    var key := Assets.AssetKey(id, asset);
    assert asset in p.assets ==> key in Assets.AssetKeys(id, p.assets.Keys);
  }

  lemma SnapshotIsStored(w: Assets.World, id: string)
    requires Assets.Inv(w) && id in w.documents
    ensures id in w.attempts && Assets.Of(w.objects, id) == Assets.Objects(id, w.attempts[id].package)
    ensures w.documents[id] == Assets.Described(w.attempts[id].seller, w.attempts[id].package)
  {
    assert Assets.AttemptOk(w, id);
  }

  /** Who owns a listing downloads what its seller uploaded, at once and for ever -
      the manifest, each image of the package, and nothing else: no other upload,
      no seller and no operator can take it away or change it. */
  lemma OwnersDownloadForEver(ss: seq<System>, m: nat, n: nat, p: Pair, asset: string)
    requires Behaviour(ss) && m <= n < |ss| && p in ss[m].shop.owned
    ensures var snapshot := ss[m].shop.owned[p].snapshot;
            && snapshot in ss[m].store.attempts
            && var upload := ss[m].store.attempts[snapshot];
               && upload.seller == ss[m].shop.owned[p].seller
               && Downloaded(ss[n], p.listing, p.user) == Some(upload.package.manifest)
               && DownloadedAsset(ss[n], p.listing, p.user, asset)
                  == if asset in upload.package.assets then Some(upload.package.assets[asset]) else None
  {
    RunKeeps(ss, m, n);
    var snapshot := ss[m].shop.owned[p].snapshot;
    OwnedSnapshot(ss[m], p);
    OwnedSnapshot(ss[n], p);
    SnapshotIsStored(ss[m].store, snapshot);
    ObjectsStay(ss[m].store, ss[n].store, snapshot);
    ReadsOwn(ss[n].store.objects, Assets.ManifestKey(snapshot));
    ReadsOwn(ss[n].store.objects, Assets.AssetKey(snapshot, asset));
    PackageReads(snapshot, ss[m].store.attempts[snapshot].package, asset);
  }

  lemma ObjectsStay(w: Assets.World, v: Assets.World, id: string)
    requires Assets.Kept(w, v) && id in w.documents
    ensures Assets.Of(v.objects, id) == Assets.Of(w.objects, id)
  {
  }

  lemma OwnedSnapshot(a: System, p: Pair)
    requires Inv(a) && p in a.shop.owned
    ensures var snapshot := a.shop.owned[p].snapshot;
            && snapshot in a.store.documents && a.store.documents[snapshot].seller == a.shop.owned[p].seller
            && Template(a.shop, p.listing, p.user) == Success(snapshot)
  {
    assert p.listing in a.shop.listings;
    var x := a.shop.listings[p.listing];
    assert x.snapshot in a.shop.snapshots;
  }

  /** At every moment of a run exactly the seller and the owners can download. */
  lemma OnlyOwnersDownload(ss: seq<System>, n: nat, id: string, user: string)
    requires Behaviour(ss) && n < |ss| && id in ss[n].shop.listings
    ensures Downloaded(ss[n], id, user).Some? <==>
              user == ss[n].shop.listings[id].seller || Pair(user, id) in ss[n].shop.owned
  {
    RunKeeps(ss, n, n);
    ListedIsReadable(ss[n], id);
    SellersAndOwners(ss[n], id, user);
  }

  predicate Readable(a: System, id: string) {
    && id in a.shop.listings && a.shop.listings[id].snapshot in a.shop.snapshots
    && a.shop.snapshots[a.shop.listings[id].snapshot].complete
    && Assets.ManifestKey(a.shop.listings[id].snapshot) in a.store.objects
  }

  lemma ListedIsReadable(a: System, id: string)
    requires Inv(a) && id in a.shop.listings
    ensures Readable(a, id)
  {
    var snapshot := a.shop.listings[id].snapshot;
    assert snapshot in a.shop.snapshots by { var x := a.shop.listings[id]; assert x.snapshot in a.shop.snapshots; }
    SnapshotIsStored(a.store, snapshot);
    ReadsOwn(a.store.objects, Assets.ManifestKey(snapshot));
    PackageReads(snapshot, a.store.attempts[snapshot].package, "");
  }

  lemma SellersAndOwners(a: System, id: string, user: string)
    requires Readable(a, id)
    ensures Downloaded(a, id, user).Some? <==> user == a.shop.listings[id].seller || Pair(user, id) in a.shop.owned
  {
  }

  // Every package can be sold and delivered.

  function Last(ss: seq<System>): System
    requires |ss| > 0
  {
    ss[|ss| - 1]
  }

  lemma OneMore(before: seq<System>, b: System) returns (ss: seq<System>)
    requires Behaviour(before) && Next(Last(before), b)
    ensures Behaviour(ss) && Last(ss) == b
  {
    ss := before + [b];
    forall n | 0 <= n < |ss| - 1 ensures StepAt(ss, n) {
      if n < |before| - 1 { assert StepAt(before, n); }
    }
  }

  lemma Traded(before: seq<System>, op: Op) returns (ss: seq<System>)
    requires Behaviour(before) && !op.DoSnapshot? && ValidOp(Last(before).shop, op)
    ensures Behaviour(ss) && Last(ss) == System(Step(Last(before).shop, op).0, Last(before).store)
  {
    var b := System(Step(Last(before).shop, op).0, Last(before).store);
    assert Trades(Last(before), b);
    ss := OneMore(before, b);
  }

  /** A marketplace that knows one snapshot and nothing else. */
  function NewShop(seller: string, id: string): Shop {
    EMPTY_SHOP.(snapshots := map[id := Snapshot(seller, "", true)])
  }

  /** While a package is uploaded into the empty system. */
  lemma {:induction false} UploadRuns(ws: seq<Assets.World>, n: nat) returns (ss: seq<System>)
    requires Assets.Steps(ws) && n < |ws| - 1 && ws[0] == Assets.EMPTY_WORLD
    requires forall k :: 0 <= k < |ws| - 1 ==> ws[k].documents == map[]
    ensures Behaviour(ss) && Last(ss) == System(EMPTY_SHOP, ws[n])
    decreases n
  {
    if n == 0 {
      ss := [System(EMPTY_SHOP, ws[0])];
    } else {
      ss := UploadRuns(ws, n - 1);
      assert Assets.StepAt(ws, n - 1);
      assert Stores(Last(ss), System(EMPTY_SHOP, ws[n]));
      ss := OneMore(ss, System(EMPTY_SHOP, ws[n]));
    }
  }

  /** The upload and its document are all there is. */
  predicate Holds(v: Assets.World, id: string, a: Assets.Attempt) {
    && id in v.attempts && v.attempts[id].package == a.package
    && v.documents == map[id := Assets.Described(a.seller, a.package)]
  }

  lemma UploadWorks(id: string, a: Assets.Attempt) returns (ws: seq<Assets.World>)
    requires Assets.WellFormed(a) && a.phase == Assets.Uploading(0)
    ensures Assets.Steps(ws) && |ws| > 1 && ws[0] == Assets.EMPTY_WORLD
    ensures forall k :: 0 <= k < |ws| - 1 ==> ws[k].documents == map[]
    ensures Holds(ws[|ws| - 1], id, a)
  {
    ws := Assets.LuckyUploadIsDocumented(Assets.EMPTY_WORLD, id, a, Assets.Fine);
  }

  lemma UploadLeads(ws: seq<Assets.World>) returns (ss: seq<System>)
    requires Assets.Steps(ws) && |ws| > 1 && ws[0] == Assets.EMPTY_WORLD
    requires forall k :: 0 <= k < |ws| - 1 ==> ws[k].documents == map[]
    ensures Behaviour(ss) && Last(ss) == System(EMPTY_SHOP, ws[|ws| - 2])
    ensures Assets.StepAt(ws, |ws| - 2)
  {
    ss := UploadRuns(ws, |ws| - 2);
  }

  lemma UploadEnters(ws: seq<Assets.World>, id: string, a: Assets.Attempt) returns (ss: seq<System>)
    requires Assets.Steps(ws) && |ws| > 1 && ws[0] == Assets.EMPTY_WORLD
    requires forall k :: 0 <= k < |ws| - 1 ==> ws[k].documents == map[]
    requires Holds(ws[|ws| - 1], id, a)
    ensures Behaviour(ss) && Last(ss) == System(NewShop(a.seller, id), ws[|ws| - 1])
  {
    ss := UploadLeads(ws);
    ss := EntersAfter(ss, ws[|ws| - 2], ws[|ws| - 1], id, a);
  }

  lemma EntersAfter(before: seq<System>, w: Assets.World, v: Assets.World, id: string, a: Assets.Attempt)
    returns (ss: seq<System>)
    requires Behaviour(before) && Last(before) == System(EMPTY_SHOP, w)
    requires Assets.Next(w, v) && w.documents == map[] && Holds(v, id, a)
    ensures Behaviour(ss) && Last(ss) == System(NewShop(a.seller, id), v)
  {
    assert Next(Last(before), System(NewShop(a.seller, id), v)) by { DocumentEnters(w, v, id, a); }
    ss := OneMore(before, System(NewShop(a.seller, id), v));
  }

  lemma DocumentEnters(w: Assets.World, v: Assets.World, id: string, a: Assets.Attempt)
    requires Assets.Next(w, v) && w.documents == map[] && Holds(v, id, a)
    ensures Stores(System(EMPTY_SHOP, w), System(NewShop(a.seller, id), v))
  {
    assert v.documents.Keys == w.documents.Keys + {id};
    assert Enters(System(EMPTY_SHOP, w), System(NewShop(a.seller, id), v), id, "");
  }

  /** Both sides have shards, and nobody has used an event yet. */
  ghost predicate Stocked(s: Shop, seller: string, buyer: string, id: string) {
    && s == NewShop(seller, id).(ledger := s.ledger) && (forall k :: k !in s.ledger.applied)
    && Answers.Balance(s, seller) == 1000 && Answers.Balance(s, buyer) == 1000
  }

  function Gift(user: string): Runs.Op { Runs.Credit(user, 1000, AdminAdjustment, None, None) }

  lemma GiftsArrive(seller: string, buyer: string, id: string)
    requires seller != buyer
    ensures var s := Step(NewShop(seller, id), Elsewhere(Gift(seller))).0;
            Stocked(Step(s, Elsewhere(Gift(buyer))).0, seller, buyer, id)
  {
    CreditTable(EMPTY_LEDGER, seller, 1000, AdminAdjustment, None, None);
    var l := Runs.Step(EMPTY_LEDGER, Gift(seller));
    CreditTable(l, buyer, 1000, AdminAdjustment, None, None);
  }

  /** The listing can be bought by this user. */
  ghost predicate OnShelf(s: Shop, listing: string, seller: string, buyer: string, id: string, price: int) {
    && Answers.Visible(s, listing) && s.listings[listing].snapshot == id
    && s.listings[listing].price == price && s.listings[listing].seller == seller
    && Pair(buyer, listing) !in s.owned && Answers.Balance(s, buyer) == 1000 && Answers.Balance(s, seller) >= 0
    && forall k :: k in s.ledger.applied ==> !k.event.Bought?
  }

  lemma GoesOnShelf(s: Shop, listing: string, seller: string, buyer: string, id: string, price: int, title: string)
    requires Stocked(s, seller, buyer, id) && seller != buyer && 0 <= price < 1000
    ensures var d := CreateDraft(s, listing, seller, Mirror, title, price, id).0;
            OnShelf(Publish(d, listing, seller, 0).0, listing, seller, buyer, id, price)
  {
    Answers.DraftAnswers(s, listing, seller, Mirror, title, price, id);
    var d := CreateDraft(s, listing, seller, Mirror, title, price, id).0;
    Answers.PublishTable(d, listing, seller, 0);
  }

  lemma GoesToBuyer(s: Shop, listing: string, seller: string, buyer: string, id: string, price: int)
    requires OnShelf(s, listing, seller, buyer, id, price) && seller != buyer && 0 <= price < 1000
    ensures var owned := Acquire(s, listing, buyer).0.owned;
            Pair(buyer, listing) in owned && owned[Pair(buyer, listing)] == Ownership(seller, id, price)
  {
    Answers.AcquireTable(s, listing, buyer);
  }

  lemma Stocks(before: seq<System>, seller: string, buyer: string, id: string) returns (ss: seq<System>)
    requires Behaviour(before) && Last(before).shop == NewShop(seller, id) && buyer != seller
    ensures Behaviour(ss) && Last(ss).store == Last(before).store && Stocked(Last(ss).shop, seller, buyer, id)
  {
    GiftsArrive(seller, buyer, id);
    ss := Given(before, seller, buyer);
  }

  lemma Given(before: seq<System>, seller: string, buyer: string) returns (ss: seq<System>)
    requires Behaviour(before)
    ensures Behaviour(ss)
    ensures var s := Step(Last(before).shop, Elsewhere(Gift(seller))).0;
            Last(ss) == System(Step(s, Elsewhere(Gift(buyer))).0, Last(before).store)
  {
    ss := Traded(before, Elsewhere(Gift(seller)));
    ss := Traded(ss, Elsewhere(Gift(buyer)));
  }

  lemma Sells(before: seq<System>, listing: string, seller: string, buyer: string, id: string, price: int,
              title: string) returns (ss: seq<System>)
    requires Behaviour(before) && Stocked(Last(before).shop, seller, buyer, id) && seller != buyer && 0 <= price < 1000
    ensures Behaviour(ss) && Last(ss).store == Last(before).store
    ensures var owned := Last(ss).shop.owned;
            Pair(buyer, listing) in owned && owned[Pair(buyer, listing)] == Ownership(seller, id, price)
  {
    var s := Last(before).shop;
    var d := CreateDraft(s, listing, seller, Mirror, title, price, id).0;
    var p := Publish(d, listing, seller, 0).0;
    assert OnShelf(p, listing, seller, buyer, id, price) by {
      GoesOnShelf(s, listing, seller, buyer, id, price, title);
    }
    GoesToBuyer(p, listing, seller, buyer, id, price);
    ss := Sold(before, listing, seller, buyer, id, price, title);
  }

  lemma Sold(before: seq<System>, listing: string, seller: string, buyer: string, id: string, price: int,
             title: string) returns (ss: seq<System>)
    requires Behaviour(before) && listing !in Last(before).shop.listings
    ensures Behaviour(ss)
    ensures var d := CreateDraft(Last(before).shop, listing, seller, Mirror, title, price, id).0;
            Last(ss) == System(Acquire(Publish(d, listing, seller, 0).0, listing, buyer).0, Last(before).store)
  {
    ss := Traded(before, DoDraft(listing, seller, Mirror, title, price, id));
    ss := Traded(ss, DoPublish(listing, seller, 0));
    ss := Traded(ss, DoAcquire(listing, buyer));
  }

  lemma SaleAfter(before: seq<System>, listing: string, seller: string, buyer: string, id: string, price: int,
                  title: string) returns (ss: seq<System>)
    requires Behaviour(before) && Last(before).shop == NewShop(seller, id) && seller != buyer && 0 <= price < 1000
    ensures Behaviour(ss) && Last(ss).store == Last(before).store
    ensures var owned := Last(ss).shop.owned;
            Pair(buyer, listing) in owned && owned[Pair(buyer, listing)] == Ownership(seller, id, price)
  {
    ss := Stocks(before, seller, buyer, id);
    ss := Sells(ss, listing, seller, buyer, id, price, title);
  }

  lemma SoldIsDelivered(ss: seq<System>, p: Pair, id: string, a: Assets.Attempt, asset: string)
    requires Behaviour(ss) && Holds(Last(ss).store, id, a)
    requires p in Last(ss).shop.owned && Last(ss).shop.owned[p].snapshot == id
    ensures Downloaded(Last(ss), p.listing, p.user) == Some(a.package.manifest)
    ensures DownloadedAsset(Last(ss), p.listing, p.user, asset)
         == if asset in a.package.assets then Some(a.package.assets[asset]) else None
  {
    OwnersDownloadForEver(ss, |ss| - 1, |ss| - 1, p, asset);
  }

  /** For every package, seller, buyer and price there is a run in which the package is
      uploaded, listed, bought and downloaded as it was uploaded. */
  lemma EveryPackageCanBeDelivered(upload: Assets.Attempt, buyer: string, price: int, title: string, asset: string,
                                   id: string, listing: string) returns (ss: seq<System>)
    requires Assets.WellFormed(upload) && upload.phase == Assets.Uploading(0)
    requires buyer != upload.seller && 0 <= price < 1000
    ensures Behaviour(ss) && Pair(buyer, listing) in Last(ss).shop.owned
    ensures Last(ss).shop.owned[Pair(buyer, listing)] == Ownership(upload.seller, id, price)
    ensures Downloaded(Last(ss), listing, buyer) == Some(upload.package.manifest)
    ensures DownloadedAsset(Last(ss), listing, buyer, asset)
         == if asset in upload.package.assets then Some(upload.package.assets[asset]) else None
  {
    var ws := UploadWorks(id, upload);
    ss := UploadEnters(ws, id, upload);
    ss := SaleAfter(ss, listing, upload.seller, buyer, id, price, title);
    SoldIsDelivered(ss, Pair(buyer, listing), id, upload, asset);
  }
}
