/** The marketplace (app/marketplace/store.py, models.py): listings with two
    independent status axes, ownerships, likes, title claims, source blocks, the
    moderation log, sale notifications and the ledger they commit with. */
module MarketModel {
  import opened Wrappers
  import opened LedgerModel
  import opened StagedMoves
  import Runs = LedgerRuns

  datatype ContentType = Mirror | Sticker
  datatype ListingStatus = Draft | Published | Unlisted | Deleted
  datatype Moderation = Active | Removed

  /** `title` is the folded title key; two titles are the same name exactly when
      their keys are equal. `publishedAt` is the first publication time. */
  datatype Listing = Listing(
    seller: string, contentType: ContentType, title: string, price: int, snapshot: string,
    status: ListingStatus, feePaid: bool, downloads: int, likes: int, publishedAt: Option<int>,
    moderation: Moderation)
  {
    /** `_is_public`. */
    predicate Public() { !moderation.Removed? && status.Published? && publishedAt.Some? }
  }

  /** `source` is empty for snapshots that do not know their local original. */
  datatype Snapshot = Snapshot(seller: string, source: string, complete: bool)

  /** The identity of an ownership or a like: (user, listing). */
  datatype Pair = Pair(user: string, listing: string)

  datatype Ownership = Ownership(seller: string, snapshot: string, price: int)
  datatype Sale = Sale(seller: string, amount: int)
  datatype BlockId = BlockId(seller: string, contentType: ContentType, source: string)
  datatype Action = TookDown | Restored
  datatype ModerationEvent = ModerationEvent(listing: string, action: Action, actor: string)

  datatype Shop = Shop(
    listings: map<string, Listing>,
    snapshots: map<string, Snapshot>,
    owned: map<Pair, Ownership>,
    sales: map<Pair, Sale>,
    likes: set<Pair>,
    titles: map<string, string>,
    blocks: map<BlockId, string>,
    log: seq<ModerationEvent>,
    ledger: Ledger)

  datatype ShopError =
    | ListingNotFound | SnapshotNotFound | InvalidListing | InvalidTransition | ModeratedListing
    | TitleTaken | SelfPurchase | SelfLike | LikeCountInconsistent | TerminalListing | NotModerated
    | NotificationFailed
    | Shards(error: ShardError)

  /** Success says whether this call changed anything. */
  type Answer = Result<bool, ShopError>

  // Policy.

  const PRICE_LIMIT := 1000
  const FEE := 10
  const COMPENSATION := 5

  function FeeReason(t: ContentType): ShardReason { if t.Mirror? then MirrorPublishFee else StickerPublishFee }
  function PurchaseReason(t: ContentType): ShardReason { if t.Mirror? then MirrorPurchase else StickerPurchase }
  function SaleReason(t: ContentType): ShardReason { if t.Mirror? then MirrorSale else StickerSale }

  predicate MarketReason(r: ShardReason) {
    || r.MirrorPublishFee? || r.StickerPublishFee? || r.ModerationCompensation?
    || r.MirrorPurchase? || r.StickerPurchase? || r.MirrorSale? || r.StickerSale?
  }

  function FeeMove(id: string, x: Listing): Move { Move(x.seller, -FEE, FeeReason(x.contentType), Named(id)) }

  function CompensationMove(id: string, x: Listing): Move {
    Move(x.seller, COMPENSATION, ModerationCompensation, Named(id))
  }

  function PurchaseMove(p: Pair, x: Listing): Move {
    Move(p.user, -x.price, PurchaseReason(x.contentType), Bought(p.user, p.listing))
  }

  function SaleMove(p: Pair, x: Listing): Move {
    Move(x.seller, x.price, SaleReason(x.contentType), Bought(p.user, p.listing))
  }

  /** The ledger once a staged movement is committed. */
  function Landed(l: Ledger, st: Staging): Ledger {
    if st.Fresh? then LedgerModel.Write(l, st.entry, st.wallet) else l
  }

  // Seller operations.

  function SetListing(s: Shop, id: string, x: Listing): Shop { s.(listings := s.listings[id := x]) }

  function CreateSnapshot(s: Shop, id: string, snapshot: Snapshot): (Shop, Answer) {
    if id in s.snapshots then (s, Failure(SnapshotNotFound))
    else (s.(snapshots := s.snapshots[id := snapshot]), Success(true))
  }

  /** `create_draft`, under a new listing id. */
  function CreateDraft(s: Shop, id: string, seller: string, contentType: ContentType, title: string,
                       price: int, snapshot: string): (Shop, Answer)
  {
    if snapshot !in s.snapshots || s.snapshots[snapshot].seller != seller then (s, Failure(SnapshotNotFound))
    else if !(0 <= price < PRICE_LIMIT) then (s, Failure(InvalidListing))
    else
      (SetListing(s, id, Listing(seller, contentType, title, price, snapshot, Draft, false, 0, 0, None, Active)),
       Success(true))
  }

  predicate Mine(s: Shop, id: string, seller: string) { id in s.listings && s.listings[id].seller == seller }

  function Released(s: Shop, id: string, x: Listing): map<string, string> {
    if x.title in s.titles && s.titles[x.title] == id then s.titles - {x.title} else s.titles
  }

  function Delete(s: Shop, id: string, seller: string): (Shop, Answer) {
    if !Mine(s, id, seller) then (s, Failure(ListingNotFound))
    else
      var x := s.listings[id];
      if x.status.Deleted? then (s, Success(false))
      else (SetListing(s, id, x.(status := Deleted)).(titles := Released(s, id, x)), Success(true))
  }

  function Unpublish(s: Shop, id: string, seller: string): (Shop, Answer) {
    if !Mine(s, id, seller) then (s, Failure(ListingNotFound))
    else
      var x := s.listings[id];
      if !x.status.Published? then (s, Success(false))
      else (SetListing(s, id, x.(status := Unlisted)).(titles := Released(s, id, x)), Success(true))
  }

  /** The block that would bar a listing's source, if the source is known. */
  function BlockOf(s: Shop, x: Listing): Option<BlockId> {
    if x.snapshot in s.snapshots && s.snapshots[x.snapshot].source != ""
    then Some(BlockId(x.seller, x.contentType, s.snapshots[x.snapshot].source))
    else None
  }

  /** Why a listing may not be published, before any shard moves; None if it may. */
  function PublishBar(s: Shop, id: string, seller: string): Option<ShopError>
    requires Mine(s, id, seller) && !s.listings[id].status.Published?
  {
    var x := s.listings[id];
    if x.status.Deleted? then Some(InvalidTransition)
    else if x.moderation.Removed? then Some(ModeratedListing)
    else if x.snapshot !in s.snapshots || s.snapshots[x.snapshot].seller != seller then Some(SnapshotNotFound)
    else if BlockOf(s, x).Some? && BlockOf(s, x).value in s.blocks then Some(ModeratedListing)
    else if x.title in s.titles && s.titles[x.title] != id then Some(TitleTaken)
    else None
  }

  function GoesUp(s: Shop, id: string, now: int, l: Ledger): Shop
    requires id in s.listings
  {
    var x := s.listings[id];
    var up := x.(status := Published, feePaid := true,
                 publishedAt := if x.publishedAt.Some? then x.publishedAt else Some(now));
    SetListing(s, id, up).(titles := s.titles[x.title := id], ledger := l)
  }

  /** First publication: the fee and the change of status are one commit. */
  function Publish(s: Shop, id: string, seller: string, now: int): (Shop, Answer) {
    if !Mine(s, id, seller) then (s, Failure(ListingNotFound))
    else
      var x := s.listings[id];
      if x.status.Published? then
        (s, if x.moderation.Removed? then Failure(ModeratedListing) else Success(false))
      else if PublishBar(s, id, seller).Some? then (s, Failure(PublishBar(s, id, seller).value))
      else if x.feePaid then (GoesUp(s, id, now, s.ledger), Success(true))
      else
        match Stage(s.ledger, {}, FeeMove(id, x))
        case Failure(e) => (s, Failure(Shards(e)))
        case Success(fee) => (GoesUp(s, id, now, Landed(s.ledger, fee)), Success(true))
  }

  // Buyer operations.

  /** The two shard movements of a paid purchase, staged in one transaction. */
  function Paid(l: Ledger, p: Pair, x: Listing): Result<Ledger, ShardError> {
    if x.price <= 0 then Success(l)
    else
      match Stage(l, {}, PurchaseMove(p, x))
      case Failure(e) => Failure(e)
      case Success(debit) =>
        match Stage(l, if debit.Fresh? then {p.user} else {}, SaleMove(p, x))
        case Failure(e) => Failure(e)
        case Success(credit) => Success(Landed(Landed(l, debit), credit))
  }

  function Bagged(s: Shop, p: Pair, x: Listing, l: Ledger): Shop {
    SetListing(s, p.listing, x.(downloads := x.downloads + 1))
      .(owned := s.owned[p := Ownership(x.seller, x.snapshot, x.price)],
        sales := s.sales[p := Sale(x.seller, x.price)],
        ledger := l)
  }

  function Acquire(s: Shop, id: string, buyer: string): (Shop, Answer) {
    if id !in s.listings || !s.listings[id].Public() then (s, Failure(ListingNotFound))
    else
      var x, p := s.listings[id], Pair(buyer, id);
      if p in s.owned then (s, Success(false))
      else if x.seller == buyer then (s, Failure(SelfPurchase))
      else
        match Paid(s.ledger, p, x)
        case Failure(e) => (s, Failure(Shards(e)))
        case Success(l) => (Bagged(s, p, x, l), Success(true))
  }

  function Like(s: Shop, id: string, user: string): (Shop, Answer) {
    if id !in s.listings || !s.listings[id].Public() then (s, Failure(ListingNotFound))
    else
      var x, p := s.listings[id], Pair(user, id);
      if p in s.likes then (s, if x.likes < 0 then Failure(LikeCountInconsistent) else Success(false))
      else if x.seller == user then (s, Failure(SelfLike))
      else if x.likes < 0 then (s, Failure(LikeCountInconsistent))
      else (SetListing(s, id, x.(likes := x.likes + 1)).(likes := s.likes + {p}), Success(true))
  }

  function Unlike(s: Shop, id: string, user: string): (Shop, Answer) {
    if id !in s.listings || s.listings[id].status.Draft? then (s, Failure(ListingNotFound))
    else
      var x, p := s.listings[id], Pair(user, id);
      if x.likes < 0 then (s, Failure(LikeCountInconsistent))
      else if p !in s.likes then (s, Success(false))
      else if x.likes == 0 then (s, Failure(LikeCountInconsistent))
      else (SetListing(s, id, x.(likes := x.likes - 1)).(likes := s.likes - {p}), Success(true))
  }

  /** `template`: who may download the original, and which snapshot it is. */
  function Template(s: Shop, id: string, user: string): Result<string, ShopError> {
    if id !in s.listings then Failure(ListingNotFound)
    else
      var x := s.listings[id];
      if x.seller != user && Pair(user, id) !in s.owned then Failure(ListingNotFound)
      else if x.snapshot !in s.snapshots || !s.snapshots[x.snapshot].complete then Failure(SnapshotNotFound)
      else Success(x.snapshot)
  }

  // Operator operations.

  function GoesDown(s: Shop, id: string, actor: string, l: Ledger): Shop
    requires id in s.listings
  {
    var x := s.listings[id];
    var block := BlockOf(s, x);
    SetListing(s, id, x.(moderation := Removed))
      .(blocks := if block.Some? then s.blocks[block.value := id] else s.blocks,
        log := s.log + [ModerationEvent(id, TookDown, actor)],
        ledger := l)
  }

  function Takedown(s: Shop, id: string, actor: string): (Shop, Answer) {
    if id !in s.listings then (s, Failure(ListingNotFound))
    else if s.listings[id].moderation.Removed? then (s, Success(false))
    else
      match Stage(s.ledger, {}, CompensationMove(id, s.listings[id]))
      case Failure(e) => (s, Failure(Shards(e)))
      case Success(paid) => (GoesDown(s, id, actor, Landed(s.ledger, paid)), Success(true))
  }

  /** A takedown whose notification raises. The listing, the block and the log are
      written by then; the compensation, waiting for the commit, is dropped. */
  function UnnoticedTakedown(s: Shop, id: string, actor: string): (Shop, Answer) {
    if id !in s.listings then (s, Failure(ListingNotFound))
    else if s.listings[id].moderation.Removed? then (s, Success(false))
    else
      match Stage(s.ledger, {}, CompensationMove(id, s.listings[id]))
      case Failure(e) => (s, Failure(Shards(e)))
      case Success(_) => (GoesDown(s, id, actor, s.ledger), Failure(NotificationFailed))
  }

  function Unblocked(s: Shop, id: string, x: Listing): map<BlockId, string> {
    var block := BlockOf(s, x);
    if block.Some? && block.value in s.blocks && s.blocks[block.value] == id then s.blocks - {block.value}
    else s.blocks
  }

  function Restore(s: Shop, id: string, actor: string): (Shop, Answer) {
    if id !in s.listings then (s, Failure(ListingNotFound))
    else
      var x := s.listings[id];
      if x.status.Deleted? then (s, Failure(TerminalListing))
      else if !x.moderation.Removed? then (s, Failure(NotModerated))
      else
        (SetListing(s, id, x.(moderation := Active))
           .(blocks := Unblocked(s, id, x), log := s.log + [ModerationEvent(id, Restored, actor)]),
         Success(true))
  }

  // Everything together.

  datatype Op =
    | DoSnapshot(id: string, snapshot: Snapshot)
    | DoDraft(id: string, seller: string, contentType: ContentType, title: string, price: int, snapshotId: string)
    | DoPublish(id: string, seller: string, now: int)
    | DoUnpublish(id: string, seller: string)
    | DoDelete(id: string, seller: string)
    | DoAcquire(id: string, buyer: string)
    | DoLike(id: string, user: string)
    | DoUnlike(id: string, user: string)
    | DoTakedown(id: string, actor: string, notified: bool)
    | DoRestore(id: string, actor: string)
    | Elsewhere(other: Runs.Op)

  function Step(s: Shop, op: Op): (Shop, Answer) {
    match op
    case DoSnapshot(id, snapshot) => CreateSnapshot(s, id, snapshot)
    case DoDraft(id, seller, t, title, price, snapshot) => CreateDraft(s, id, seller, t, title, price, snapshot)
    case DoPublish(id, seller, now) => Publish(s, id, seller, now)
    case DoUnpublish(id, seller) => Unpublish(s, id, seller)
    case DoDelete(id, seller) => Delete(s, id, seller)
    case DoAcquire(id, buyer) => Acquire(s, id, buyer)
    case DoLike(id, user) => Like(s, id, user)
    case DoUnlike(id, user) => Unlike(s, id, user)
    case DoTakedown(id, actor, notified) =>
      if notified then Takedown(s, id, actor) else UnnoticedTakedown(s, id, actor)
    case DoRestore(id, actor) => Restore(s, id, actor)
    case Elsewhere(other) => (s.(ledger := Runs.Step(s.ledger, other)), Success(true))
  }

  /** A ledger operation of another feature: it uses no marketplace reason. */
  predicate NotMarket(op: Runs.Op) {
    match op
    case Credit(_, _, reason, _, _) => !MarketReason(reason)
    case Debit(_, _, reason, _) => !MarketReason(reason)
    case Batch(moves) => forall m :: m in moves ==> !MarketReason(m.reason)
    case _ => true
  }

  /** Listing ids are new random ids; the other features keep to their reasons. */
  predicate ValidOp(s: Shop, op: Op) {
    match op
    case DoDraft(id, _, _, _, _, _) => id !in s.listings
    case Elsewhere(other) => Runs.ValidOp(other) && NotMarket(other)
    case _ => true
  }

  function Run(s: Shop, ops: seq<Op>): Shop
    decreases |ops|
  {
    if ops == [] then s else Run(Step(s, ops[0]).0, ops[1..])
  }

  predicate ValidRun(s: Shop, ops: seq<Op>)
    decreases |ops|
  {
    ops == [] || (ValidOp(s, ops[0]) && ValidRun(Step(s, ops[0]).0, ops[1..]))
  }

  const EMPTY_SHOP := Shop(map[], map[], map[], map[], {}, map[], map[], [], EMPTY_LEDGER)
}
