/** Deleting an account (app/auth/deletion.py): several collections, no common
    transaction, and safe to run again after any interruption. */
module AccountDeletion {
  import opened Wrappers
  import Ledgers = LedgerModel
  import Iap = IapModel
  import Runs = LedgerRuns
  import Theorems = LedgerTheorems

  /** The owner mark that is nobody's user id. */
  const DELETED_OWNER := "deleted-account"

  const PAGE := 200

  /** `likes` is None where the document has no usable counter. */
  datatype Listing = Listing(seller: string, deleted: bool, likes: Option<int>)

  datatype Like = Like(user: string, listing: Option<string>)

  datatype ClaimCollection = IapTransactions | IapRefunds | CapacityOperations
  datatype ClaimId = ClaimId(collection: ClaimCollection, id: string)

  /** Documents whose id is the user id. */
  datatype OwnCollection = Users | Wallets | NotificationPreferences
  datatype OwnId = OwnId(collection: OwnCollection, user: string)

  /** Documents found by their user field. */
  datatype Collection =
    | Sessions | Entries | Ownership | Quotas | Acquisitions | RewardContexts | AiGenerations
    | PushDevices | Notifications | NotificationDeliveries | Identities

  datatype DocId = DocId(collection: Collection, id: string)

  datatype Db = Db(
    listings: map<string, Listing>,
    likes: map<string, Like>,
    claims: map<ClaimId, string>,
    own: set<OwnId>,
    docs: map<DocId, string>)

  // The single writes.

  datatype Write =
    | Retire(listing: string)
    | Unlike(like: string)
    | Anonymize(claim: ClaimId)
    | DeleteOwn(own: OwnCollection)
    | DeletePage(page: set<DocId>)

  function Lowered(likes: Option<int>): Option<int> {
    if likes.Some? then Some(if likes.value > 1 then likes.value - 1 else 0) else None
  }

  /** The like document and the counter change in one transaction. */
  function Unliked(db: Db, like: string): Db {
    if like !in db.likes then db
    else
      var at := db.likes[like].listing;
      db.(likes := db.likes - {like},
          listings := if at.Some? && at.value in db.listings
                      then db.listings[at.value :=
                         db.listings[at.value].(likes := Lowered(db.listings[at.value].likes))]
                      else db.listings)
  }

  /** May this write be issued on behalf of `user`? */
  predicate Allowed(db: Db, user: string, w: Write) {
    match w
    case Retire(id) => id in db.listings && db.listings[id].seller == user
    case Unlike(like) => like in db.likes ==> db.likes[like].user == user
    case Anonymize(claim) => claim in db.claims && db.claims[claim] == user
    case DeleteOwn(_) => true
    case DeletePage(page) => forall d :: d in page && d in db.docs ==> db.docs[d] == user
  }

  function Performed(db: Db, user: string, w: Write): Db
    requires Allowed(db, user, w)
  {
    match w
    case Retire(id) => db.(listings := db.listings[id := db.listings[id].(seller := DELETED_OWNER, deleted := true)])
    case Unlike(like) => Unliked(db, like)
    case Anonymize(claim) => db.(claims := db.claims[claim := DELETED_OWNER])
    case DeleteOwn(collection) => db.(own := db.own - {OwnId(collection, user)})
    case DeletePage(page) => db.(docs := db.docs - page)
  }

  // The final state, all at once.

  /** The user's likes on one listing. */
  function LikesOn(likes: map<string, Like>, user: string, listing: string): set<string> {
    set k | k in likes && likes[k].user == user && likes[k].listing == Some(listing)
  }

  function Reduced(likes: Option<int>, n: int): Option<int> {
    if likes.None? then None
    else if n == 0 then likes
    else Some(if likes.value > n then likes.value - n else 0)
  }

  function FinalListing(db: Db, user: string, id: string): Listing
    requires id in db.listings
  {
    var x := db.listings[id];
    var counted := x.(likes := Reduced(x.likes, |LikesOn(db.likes, user, id)|));
    if x.seller == user then counted.(seller := DELETED_OWNER, deleted := true) else counted
  }

  function Final(db: Db, user: string): Db {
    Db(map id | id in db.listings :: FinalListing(db, user, id),
       map k | k in db.likes && db.likes[k].user != user :: db.likes[k],
       map c | c in db.claims :: if db.claims[c] == user then DELETED_OWNER else db.claims[c],
       set o | o in db.own && o.user != user,
       map d | d in db.docs && db.docs[d] != user :: db.docs[d])
  }

  // No write, in whatever order, changes where the deletion is heading.

  lemma RetireKeepsFinal(db: Db, user: string, id: string)
    requires user != DELETED_OWNER && Allowed(db, user, Retire(id))
    ensures Final(Performed(db, user, Retire(id)), user) == Final(db, user)
  {
    var after := Performed(db, user, Retire(id));
    forall i | i in db.listings ensures FinalListing(after, user, i) == FinalListing(db, user, i) {
      assert LikesOn(after.likes, user, i) == LikesOn(db.likes, user, i);
    }
  }

  lemma UnlikeKeepsListing(db: Db, user: string, like: string, id: string)
    requires like in db.likes && db.likes[like].user == user && id in db.listings
    ensures FinalListing(Unliked(db, like), user, id) == FinalListing(db, user, id)
  {
    LikesOnShrinks(db.likes, user, like, id);
  }

  lemma UnlikeKeepsFinal(db: Db, user: string, like: string)
    requires user != DELETED_OWNER && Allowed(db, user, Unlike(like))
    ensures Final(Performed(db, user, Unlike(like)), user) == Final(db, user)
  {
    if like in db.likes {
      var after := Unliked(db, like);
      assert Final(after, user).listings == Final(db, user).listings by {
        forall i | i in db.listings ensures FinalListing(after, user, i) == FinalListing(db, user, i) {
          UnlikeKeepsListing(db, user, like, i);
        }
      }
      assert Final(after, user).likes == Final(db, user).likes;
    }
  }

  lemma LikesOnShrinks(likes: map<string, Like>, user: string, like: string, listing: string)
    requires like in likes && likes[like].user == user
    ensures |LikesOn(likes - {like}, user, listing)|
         == |LikesOn(likes, user, listing)| - if likes[like].listing == Some(listing) then 1 else 0
    ensures likes[like].listing == Some(listing) ==> |LikesOn(likes, user, listing)| >= 1
  {
    var before, after := LikesOn(likes, user, listing), LikesOn(likes - {like}, user, listing);
    if likes[like].listing == Some(listing) {
      assert like in before && after == before - {like};
    } else {
      assert after == before;
    }
  }

  lemma AnonymizeKeepsFinal(db: Db, user: string, claim: ClaimId)
    requires user != DELETED_OWNER && Allowed(db, user, Anonymize(claim))
    ensures Final(Performed(db, user, Anonymize(claim)), user) == Final(db, user)
  {
    assert Final(Performed(db, user, Anonymize(claim)), user).claims == Final(db, user).claims;
  }

  lemma DeleteOwnKeepsFinal(db: Db, user: string, collection: OwnCollection)
    ensures Final(Performed(db, user, DeleteOwn(collection)), user) == Final(db, user)
  {
    assert Final(Performed(db, user, DeleteOwn(collection)), user).own == Final(db, user).own;
  }

  lemma DeletePageKeepsFinal(db: Db, user: string, page: set<DocId>)
    requires Allowed(db, user, DeletePage(page))
    ensures Final(Performed(db, user, DeletePage(page)), user) == Final(db, user)
  {
    assert Final(Performed(db, user, DeletePage(page)), user).docs == Final(db, user).docs;
  }

  lemma WriteKeepsFinal(db: Db, user: string, w: Write)
    requires user != DELETED_OWNER && Allowed(db, user, w)
    ensures Final(Performed(db, user, w), user) == Final(db, user)
  {
    match w
    case Retire(id) => RetireKeepsFinal(db, user, id);
    case Unlike(like) => UnlikeKeepsFinal(db, user, like);
    case Anonymize(claim) => AnonymizeKeepsFinal(db, user, claim);
    case DeleteOwn(collection) => DeleteOwnKeepsFinal(db, user, collection);
    case DeletePage(page) => DeletePageKeepsFinal(db, user, page);
  }

  /** Some writes of an attempt that was cut short. */
  predicate AllAllowed(db: Db, user: string, ws: seq<Write>)
    decreases |ws|
  {
    ws == [] || (Allowed(db, user, ws[0]) && AllAllowed(Performed(db, user, ws[0]), user, ws[1..]))
  }

  function AllPerformed(db: Db, user: string, ws: seq<Write>): Db
    requires AllAllowed(db, user, ws)
    decreases |ws|
  {
    if ws == [] then db else AllPerformed(Performed(db, user, ws[0]), user, ws[1..])
  }

  /** After any writes of an interrupted deletion, a full one ends where an
      uninterrupted one would have ended. */
  lemma {:induction false} DeletionIsResumable(db: Db, user: string, ws: seq<Write>)
    requires user != DELETED_OWNER && AllAllowed(db, user, ws)
    ensures Final(AllPerformed(db, user, ws), user) == Final(db, user)
    decreases |ws|
  {
    if ws != [] {
      WriteKeepsFinal(db, user, ws[0]);
      DeletionIsResumable(Performed(db, user, ws[0]), user, ws[1..]);
    }
  }

  /** The second half of a deletion: personal documents only. */
  predicate PersonalOnly(ws: seq<Write>) { forall w :: w in ws ==> w.DeleteOwn? || w.DeletePage? }

  /** The second half does not look at claims. So a purchase that commits after the
      claims were re-owned keeps its claim in the user's name, and loses its entry
      with all others: the orphaned claim of the optimistic store. */
  lemma {:induction false} LatePurchaseIsOrphaned(db: Db, user: string, ws: seq<Write>, claim: ClaimId, entry: DocId)
    requires AllAllowed(db, user, ws) && PersonalOnly(ws)
    requires claim in db.claims && db.claims[claim] == user && entry in db.docs && db.docs[entry] == user
    ensures var end := AllPerformed(db, user, ws);
            && claim in end.claims && end.claims[claim] == user
            && ((exists w :: w in ws && w.DeletePage? && entry in w.page) ==> entry !in end.docs)
    decreases |ws|
  {
    if ws != [] {
      var next := Performed(db, user, ws[0]);
      assert ws[0] in ws && forall w :: w in ws[1..] ==> w in ws;
      if entry in next.docs {
        LatePurchaseIsOrphaned(next, user, ws[1..], claim, entry);
      } else {
        PersonalKeepsGone(next, user, ws[1..], claim, entry);
      }
    }
  }

  lemma {:induction false} PersonalKeepsGone(db: Db, user: string, ws: seq<Write>, claim: ClaimId, entry: DocId)
    requires AllAllowed(db, user, ws) && PersonalOnly(ws) && claim in db.claims && entry !in db.docs
    ensures var end := AllPerformed(db, user, ws);
            claim in end.claims && end.claims[claim] == db.claims[claim] && entry !in end.docs
    decreases |ws|
  {
    if ws != [] {
      assert ws[0] in ws && forall w :: w in ws[1..] ==> w in ws;
      PersonalKeepsGone(Performed(db, user, ws[0]), user, ws[1..], claim, entry);
    }
  }

  /** Nothing of the user is left. */
  predicate Gone(db: Db, user: string) {
    && (forall id :: id in db.listings ==> db.listings[id].seller != user)
    && (forall k :: k in db.likes ==> db.likes[k].user != user)
    && (forall c :: c in db.claims ==> db.claims[c] != user)
    && (forall o :: o in db.own ==> o.user != user)
    && (forall d :: d in db.docs ==> db.docs[d] != user)
  }

  lemma GoneIsFinal(db: Db, user: string)
    requires Gone(db, user)
    ensures Final(db, user) == db
  {
    forall id | id in db.listings ensures FinalListing(db, user, id) == db.listings[id] {
      assert LikesOn(db.likes, user, id) == {};
    }
    assert Final(db, user).listings == db.listings && Final(db, user).likes == db.likes;
    assert Final(db, user).claims == db.claims && Final(db, user).own == db.own && Final(db, user).docs == db.docs;
  }

  lemma FinalIsGone(db: Db, user: string)
    requires user != DELETED_OWNER
    ensures Gone(Final(db, user), user)
  {
  }

  /** Running the whole deletion again changes nothing. */
  lemma DeletionIsIdempotent(db: Db, user: string)
    requires user != DELETED_OWNER
    ensures Final(Final(db, user), user) == Final(db, user)
  {
    FinalIsGone(db, user);
    GoneIsFinal(Final(db, user), user);
  }

  // Every write that has something to do brings the deletion closer to its end.

  function ListingsOf(db: Db, user: string): set<string> {
    set id | id in db.listings && db.listings[id].seller == user
  }

  function LikesOf(db: Db, user: string): set<string> { set k | k in db.likes && db.likes[k].user == user }

  function ClaimsOf(db: Db, user: string): set<ClaimId> { set c | c in db.claims && db.claims[c] == user }

  /** How many documents of the user there are. */
  function Left(db: Db, user: string): nat {
    |ListingsOf(db, user)| + |LikesOf(db, user)| + |ClaimsOf(db, user)|
    + |OwnOf(db.own, user)| + |DocsOf(db.docs, user)|
  }

  predicate Useful(db: Db, user: string, w: Write) {
    match w
    case Retire(_) => true
    case Unlike(like) => like in db.likes
    case Anonymize(_) => true
    case DeleteOwn(collection) => OwnId(collection, user) in db.own
    case DeletePage(page) => exists d :: d in page && d in db.docs
  }

  lemma RetireProgresses(db: Db, user: string, id: string)
    requires user != DELETED_OWNER && Allowed(db, user, Retire(id))
    ensures Left(Performed(db, user, Retire(id)), user) == Left(db, user) - 1
  {
    var after := Performed(db, user, Retire(id));
    assert id in ListingsOf(db, user) && ListingsOf(after, user) == ListingsOf(db, user) - {id};
  }

  lemma UnlikeProgresses(db: Db, user: string, like: string)
    requires like in db.likes && db.likes[like].user == user
    ensures Left(Unliked(db, like), user) == Left(db, user) - 1
  {
    var after := Unliked(db, like);
    assert like in LikesOf(db, user) && LikesOf(after, user) == LikesOf(db, user) - {like};
    assert ListingsOf(after, user) == ListingsOf(db, user);
  }

  lemma UsefulWritesProgress(db: Db, user: string, w: Write)
    requires user != DELETED_OWNER && Allowed(db, user, w) && Useful(db, user, w)
    ensures Left(Performed(db, user, w), user) < Left(db, user)
  {
    var after := Performed(db, user, w);
    match w
    case Retire(id) => RetireProgresses(db, user, id);
    case Unlike(like) => UnlikeProgresses(db, user, like);
    case Anonymize(claim) =>
      assert claim in ClaimsOf(db, user) && ClaimsOf(after, user) == ClaimsOf(db, user) - {claim};
    case DeleteOwn(collection) => OwnShrinks(db.own, OwnId(collection, user));
    case DeletePage(page) =>
      var d :| d in page && d in db.docs;
      assert d in DocsOf(db.docs, user) && DocsOf(after.docs, user) <= DocsOf(db.docs, user) - {d};
      SmallerSet(DocsOf(after.docs, user), DocsOf(db.docs, user) - {d});
  }

  lemma SmallerSet(a: set<DocId>, b: set<DocId>)
    requires a <= b
    ensures |a| <= |b|
  {
    assert b == a + (b - a);
  }

  /** As long as something is left, some write has something to do. */
  lemma SomethingToDo(db: Db, user: string) returns (w: Write)
    requires !Gone(db, user)
    ensures Allowed(db, user, w) && Useful(db, user, w)
  {
    if id :| id in db.listings && db.listings[id].seller == user {
      w := Retire(id);
    } else if k :| k in db.likes && db.likes[k].user == user {
      w := Unlike(k);
    } else if c :| c in db.claims && db.claims[c] == user {
      w := Anonymize(c);
    } else if o :| o in db.own && o.user == user {
      w := DeleteOwn(o.collection);
    } else {
      var d :| d in db.docs && db.docs[d] == user;
      w := DeletePage({d});
    }
  }

  predicate AllUseful(db: Db, user: string, ws: seq<Write>)
    requires AllAllowed(db, user, ws)
    decreases |ws|
  {
    ws == [] || (Useful(db, user, ws[0]) && AllUseful(Performed(db, user, ws[0]), user, ws[1..]))
  }

  /** So a deletion cannot go on for ever, and one that has nothing left to do has
      reached the final state, in whatever order its writes came. */
  lemma {:induction false} DeletionEnds(db: Db, user: string, ws: seq<Write>)
    requires user != DELETED_OWNER && AllAllowed(db, user, ws) && AllUseful(db, user, ws)
    ensures |ws| + Left(AllPerformed(db, user, ws), user) <= Left(db, user)
    ensures Gone(AllPerformed(db, user, ws), user) ==> AllPerformed(db, user, ws) == Final(db, user)
    decreases |ws|
  {
    if ws == [] {
      if Gone(db, user) { GoneIsFinal(db, user); }
    } else {
      UsefulWritesProgress(db, user, ws[0]);
      WriteKeepsFinal(db, user, ws[0]);
      DeletionEnds(Performed(db, user, ws[0]), user, ws[1..]);
    }
  }

  /** What a deletion leaves, document by document. The user's listings are deleted
      and belong to nobody; each listing lost the user's likes; the user's likes and
      personal documents are gone; every claim is kept, the user's under the owner mark. */
  lemma WhatIsLeft(db: Db, user: string)
    ensures var end := Final(db, user);
            && end.listings.Keys == db.listings.Keys
            && (forall id :: id in db.listings && db.listings[id].seller == user ==>
                  end.listings[id].seller == "deleted-account" && end.listings[id].deleted)
            && (forall id :: id in db.listings && db.listings[id].seller != user ==>
                  && end.listings[id].seller == db.listings[id].seller
                  && end.listings[id].deleted == db.listings[id].deleted)
            && (forall id :: id in db.listings ==> LikesAreLowered(db, user, id, end.listings[id].likes))
            && (forall k :: k in end.likes <==> k in db.likes && db.likes[k].user != user)
            && (forall k :: k in end.likes ==> end.likes[k] == db.likes[k])
            && end.claims.Keys == db.claims.Keys
            && (forall c :: c in db.claims ==>
                  end.claims[c] == if db.claims[c] == user then "deleted-account" else db.claims[c])
            && (forall o :: o in end.own <==> o in db.own && o.user != user)
            && (forall d :: d in end.docs <==> d in db.docs && db.docs[d] != user)
            && (forall d :: d in end.docs ==> end.docs[d] == db.docs[d])
  {
    forall id | id in db.listings ensures LikesAreLowered(db, user, id, FinalListing(db, user, id).likes) {
      assert LikesOn(db.likes, user, id) == set k | k in db.likes && db.likes[k] == Like(user, Some(id));
    }
  }

  /** The counter, if there is a usable one, went down by the user's likes, not below 0. */
  ghost predicate LikesAreLowered(db: Db, user: string, id: string, end: Option<int>)
    requires id in db.listings
  {
    var mine := |set k | k in db.likes && db.likes[k] == Like(user, Some(id))|;
    match db.listings[id].likes
    case None => end == None
    case Some(n) =>
      && end.Some?
      && (mine == 0 ==> end.value == n)
      && (mine > 0 && n >= mine ==> end.value == n - mine)
      && (mine > 0 && n < mine ==> end.value == 0)
  }

  /** What belongs to others stays: their listings (but for the count of likes),
      likes, claims and documents. Every claim survives, under another owner. */
  lemma OthersAreUntouched(db: Db, user: string, other: string)
    requires user != DELETED_OWNER && other != user
    ensures var end := Final(db, user);
            && (forall id :: id in db.listings && db.listings[id].seller == other ==>
                  id in end.listings && end.listings[id] == db.listings[id].(likes := end.listings[id].likes))
            && (forall k :: k in db.likes && db.likes[k].user == other ==>
                  k in end.likes && end.likes[k] == db.likes[k])
            && (forall c :: c in db.claims && db.claims[c] == other ==> c in end.claims && end.claims[c] == other)
            && (forall o :: o in db.own && o.user == other ==> o in end.own)
            && (forall d :: d in db.docs && db.docs[d] == other ==> d in end.docs && end.docs[d] == other)
            && end.claims.Keys == db.claims.Keys
  {
  }

  // Like counters.

  function AllLikesOn(likes: map<string, Like>, listing: string): set<string> {
    set k | k in likes && likes[k].listing == Some(listing)
  }

  ghost predicate CountsAgree(db: Db) {
    forall id :: id in db.listings ==> db.listings[id].likes == Some(|AllLikesOn(db.likes, id)|)
  }

  lemma AllLikesShrink(likes: map<string, Like>, like: string, listing: string)
    requires like in likes
    ensures |AllLikesOn(likes - {like}, listing)|
         == |AllLikesOn(likes, listing)| - if likes[like].listing == Some(listing) then 1 else 0
  {
    var before, after := AllLikesOn(likes, listing), AllLikesOn(likes - {like}, listing);
    if likes[like].listing == Some(listing) {
      assert like in before && after == before - {like};
    } else {
      assert after == before;
    }
  }

  /** After every single write - so also after an interruption - each counter is
      the number of like documents there are. */
  lemma CountsStayExact(db: Db, user: string, w: Write)
    requires CountsAgree(db) && Allowed(db, user, w)
    ensures CountsAgree(Performed(db, user, w))
  {
    var after := Performed(db, user, w);
    match w
    case Unlike(like) =>
      if like in db.likes {
        forall id | id in after.listings ensures after.listings[id].likes == Some(|AllLikesOn(after.likes, id)|) {
          AllLikesShrink(db.likes, like, id);
        }
      }
    case _ =>
  }

  lemma {:induction false} CountsStayExactThroughout(db: Db, user: string, ws: seq<Write>)
    requires CountsAgree(db) && AllAllowed(db, user, ws)
    ensures CountsAgree(AllPerformed(db, user, ws))
    decreases |ws|
  {
    if ws != [] {
      CountsStayExact(db, user, ws[0]);
      CountsStayExactThroughout(Performed(db, user, ws[0]), user, ws[1..]);
    }
  }

  /** A re-owned purchase claim keeps refusing the purchase, whoever submits it. */
  lemma ReownedPurchaseIsRefused(l: Ledgers.Ledger, user: string, t: Iap.Transaction, amount: int)
    requires Iap.Slot(t.id) in l.claims && l.claims[Iap.Slot(t.id)].user == DELETED_OWNER && user != DELETED_OWNER
    ensures Iap.Purchase(l, user, t, amount).0 == l && Iap.Purchase(l, user, t, amount).1.Failure?
  {
  }

  /** ... after whatever else the ledger does. */
  lemma ReownedPurchaseStaysRefused(l: Ledgers.Ledger, ops: seq<Runs.Op>, user: string, t: Iap.Transaction, amount: int)
    requires Iap.Slot(t.id) in l.claims && l.claims[Iap.Slot(t.id)].user == DELETED_OWNER && user != DELETED_OWNER
    ensures var m := Runs.Run(l, ops);
            Iap.Purchase(m, user, t, amount).0 == m && Iap.Purchase(m, user, t, amount).1.Failure?
  {
    Theorems.ClaimsKeepTheirOwners(l, ops, Iap.Slot(t.id));
    ReownedPurchaseIsRefused(Runs.Run(l, ops), user, t, amount);
  }

  // The service.

  /** The documents of one collection that belong to the user. */
  function Matching(docs: map<DocId, string>, collection: Collection, user: string): set<DocId> {
    set d | d in docs && d.collection == collection && docs[d] == user
  }

  /** What is left after some pages is what the next page is taken from. */
  lemma PagesAddUp(docs: map<DocId, string>, gone: set<DocId>, page: set<DocId>, collection: Collection, user: string)
    requires gone <= Matching(docs, collection, user) && page <= Matching(docs - gone, collection, user)
    ensures page !! gone && gone + page <= Matching(docs, collection, user)
    ensures docs - (gone + page) == docs - gone - page
    ensures page == Matching(docs - gone, collection, user) ==> gone + page == Matching(docs, collection, user)
    ensures |Matching(docs, collection, user) - (gone + page)| == |Matching(docs, collection, user) - gone| - |page|
    ensures |gone + page| == |gone| + |page|
  {
    MatchingLeft(docs, gone, collection, user);
    RestAgain(docs, gone, page);
    PartsAddUp(Matching(docs, collection, user), gone, page);
  }

  lemma RestAgain(docs: map<DocId, string>, gone: set<DocId>, page: set<DocId>)
    ensures docs - (gone + page) == docs - gone - page
  {
  }

  lemma MatchingLeft(docs: map<DocId, string>, gone: set<DocId>, collection: Collection, user: string)
    ensures Matching(docs - gone, collection, user) == Matching(docs, collection, user) - gone
  {
  }

  lemma PartsAddUp(all: set<DocId>, gone: set<DocId>, page: set<DocId>)
    requires gone <= all && page <= all - gone
    ensures page !! gone && gone + page <= all
    ensures page == all - gone ==> gone + page == all
    ensures |all - (gone + page)| == |all - gone| - |page|
    ensures |gone + page| == |gone| + |page|
  {
    assert all - gone == (all - (gone + page)) + page;
  }

  class AccountDeletionService {
    var listings: map<string, Listing>
    var likes: map<string, Like>
    var claims: map<ClaimId, string>
    var own: set<OwnId>
    var docs: map<DocId, string>

    constructor (db: Db)
      ensures View() == db
    {
      listings, likes, claims, own, docs := db.listings, db.likes, db.claims, db.own, db.docs;
    }

    function View(): Db
      reads this
    {
      Db(listings, likes, claims, own, docs)
    }

    method RetireListings(user: string) returns (count: nat)
      requires user != DELETED_OWNER
      modifies this`listings
      ensures Final(View(), user) == Final(old(View()), user)
      ensures forall id :: id in listings ==> listings[id].seller != user
      ensures count == |set id | id in old(listings) && old(listings)[id].seller == user|
    {
      count := 0;
      var todo := set id | id in listings && listings[id].seller == user;
      ghost var all := todo;
      while todo != {}
        invariant todo <= all && count == |all| - |todo|
        invariant todo == set id | id in listings && listings[id].seller == user
        invariant Final(View(), user) == Final(old(View()), user)
        decreases |todo|
      {
        var id :| id in todo;
        RetireKeepsFinal(View(), user, id);
        listings := listings[id := listings[id].(seller := DELETED_OWNER, deleted := true)];
        todo := todo - {id};
        count := count + 1;
      }
      assert forall id :: id in listings ==> listings[id].seller != user by {
        forall id | id in listings ensures listings[id].seller != user {
          assert id !in todo;
        }
      }
    }

    method RemoveLikes(user: string) returns (count: nat)
      requires user != DELETED_OWNER
      modifies this`likes, this`listings
      ensures Final(View(), user) == Final(old(View()), user)
      ensures forall k :: k in likes ==> likes[k].user != user
      ensures (forall id :: id in old(listings) ==> old(listings)[id].seller != user) ==>
                (forall id :: id in listings ==> listings[id].seller != user)
      ensures count == |set k | k in old(likes) && old(likes)[k].user == user|
    {
      count := 0;
      var todo := set k | k in likes && likes[k].user == user;
      ghost var all := todo;
      while todo != {}
        invariant todo <= all && count == |all| - |todo|
        invariant todo == set k | k in likes && likes[k].user == user
        invariant Final(View(), user) == Final(old(View()), user)
        invariant (forall id :: id in old(listings) ==> old(listings)[id].seller != user) ==>
                    (forall id :: id in listings ==> listings[id].seller != user)
        decreases |todo|
      {
        var like :| like in todo;
        UnlikeKeepsFinal(View(), user, like);
        RemoveOneLike(like);
        todo := todo - {like};
        count := count + 1;
      }
      assert forall k :: k in likes ==> likes[k].user != user by {
        forall k | k in likes ensures likes[k].user != user {
          assert k !in todo;
        }
      }
    }

    /** One transaction. */
    method RemoveOneLike(like: string)
      requires like in likes
      modifies this`likes, this`listings
      ensures View() == Unliked(old(View()), like)
    {
      var at := likes[like].listing;
      likes := likes - {like};
      if at.Some? && at.value in listings {
        var x := listings[at.value];
        if x.likes.Some? {
          listings := listings[at.value := x.(likes := Some(if x.likes.value - 1 > 0 then x.likes.value - 1 else 0))];
        } else {
          listings := listings[at.value := x];
        }
      }
    }

    method AnonymizeClaims(user: string) returns (count: nat)
      requires user != DELETED_OWNER
      modifies this`claims
      ensures Final(View(), user) == Final(old(View()), user)
      ensures forall c :: c in claims ==> claims[c] != user
      ensures claims.Keys == old(claims).Keys
      ensures count == |set c | c in old(claims) && old(claims)[c] == user|
    {
      count := 0;
      var todo := set c | c in claims && claims[c] == user;
      ghost var all := todo;
      while todo != {}
        invariant todo <= all && count == |all| - |todo|
        invariant todo == set c | c in claims && claims[c] == user
        invariant Final(View(), user) == Final(old(View()), user)
        invariant claims.Keys == old(claims).Keys
        decreases |todo|
      {
        var c :| c in todo;
        WriteKeepsFinal(View(), user, Anonymize(c));
        claims := claims[c := DELETED_OWNER];
        todo := todo - {c};
        count := count + 1;
      }
      assert forall c :: c in claims ==> claims[c] != user by {
        forall c | c in claims ensures claims[c] != user {
          assert c !in todo;
        }
      }
    }

    /** A query with a limit: some matching documents, all of them if they fit. */
    method Query(collection: Collection, user: string) returns (page: set<DocId>)
      ensures page <= Matching(docs, collection, user) && |page| <= PAGE
      ensures |page| < PAGE ==> page == Matching(docs, collection, user)
    {
      page := {};
      var rest := Matching(docs, collection, user);
      while rest != {} && |page| < PAGE
        invariant page + rest == Matching(docs, collection, user) && page !! rest && |page| <= PAGE
        decreases |rest|
      {
        var d :| d in rest;
        page := page + {d};
        rest := rest - {d};
      }
    }

    /** `_delete_where`: page by page until a page is not full. */
    method DeleteWhere(collection: Collection, user: string) returns (count: nat)
      requires user != DELETED_OWNER
      modifies this`docs
      ensures Matching(docs, collection, user) == {}
      ensures docs == old(docs) - Matching(old(docs), collection, user)
      ensures count == |Matching(old(docs), collection, user)|
      ensures Final(View(), user) == Final(old(View()), user)
    {
      count := 0;
      ghost var gone: set<DocId> := {};
      var more := true;
      while more
        invariant gone <= Matching(old(docs), collection, user) && docs == old(docs) - gone && count == |gone|
        invariant !more ==> gone == Matching(old(docs), collection, user)
        decreases |Matching(old(docs), collection, user) - gone|, more
      {
        var page := Query(collection, user);
        PagesAddUp(old(docs), gone, page, collection, user);
        docs := docs - page;
        count := count + |page|;
        gone := gone + page;
        more := |page| == PAGE;
      }
      WriteKeepsFinal(old(View()), user, DeletePage(gone));
    }

    /** The user's own documents, then everything found by the user field. */
    method DeletePersonalDocuments(user: string) returns (count: nat)
      requires user != DELETED_OWNER
      modifies this`own, this`docs
      ensures Final(View(), user) == Final(old(View()), user)
      ensures (forall o :: o in own ==> o.user != user) && (forall d :: d in docs ==> docs[d] != user)
      ensures count == |OwnOf(old(own), user)| + |DocsOf(old(docs), user)|
    {
      count := 0;
      for i := 0 to |OWN_COLLECTIONS|
        invariant Final(View(), user) == Final(old(View()), user) && docs == old(docs)
        invariant forall j :: 0 <= j < i ==> OwnId(OWN_COLLECTIONS[j], user) !in own
        invariant count + |OwnOf(own, user)| == |OwnOf(old(own), user)|
      {
        var o := OwnId(OWN_COLLECTIONS[i], user);
        if o in own {
          WriteKeepsFinal(View(), user, DeleteOwn(OWN_COLLECTIONS[i]));
          OwnShrinks(own, o);
          own := own - {o};
          count := count + 1;
        }
      }
      OwnCovered(own, user);
      assert OwnOf(own, user) == {};
      for i := 0 to |FIELD_COLLECTIONS|
        invariant Final(View(), user) == Final(old(View()), user)
        invariant forall o :: o in own ==> o.user != user
        invariant forall j, d :: 0 <= j < i && d in docs && d.collection == FIELD_COLLECTIONS[j] ==> docs[d] != user
        invariant count + |DocsOf(docs, user)| == |OwnOf(old(own), user)| + |DocsOf(old(docs), user)|
      {
        DocsShrink(docs, FIELD_COLLECTIONS[i], user);
        var n := DeleteWhere(FIELD_COLLECTIONS[i], user);
        count := count + n;
        forall d | d in docs && d.collection == FIELD_COLLECTIONS[i] ensures docs[d] != user {
          assert d !in Matching(docs, FIELD_COLLECTIONS[i], user);
        }
      }
      DocsCovered(docs, user);
      assert DocsOf(docs, user) == {};
    }

    /** `delete`: wherever an earlier attempt stopped, the end is the same. The
        result counts what there was. */
    method Delete(user: string) returns (listed: nat, liked: nat, documents: nat, claimed: nat)
      requires user != DELETED_OWNER
      modifies this
      ensures View() == Final(old(View()), user)
      ensures listed == |set id | id in old(listings) && old(listings)[id].seller == user|
      ensures liked == |set k | k in old(likes) && old(likes)[k].user == user|
      ensures documents == |OwnOf(old(own), user)| + |DocsOf(old(docs), user)|
      ensures claimed == |set c | c in old(claims) && old(claims)[c] == user|
    {
      listed := RetireListings(user);
      liked := RemoveLikes(user);
      claimed := AnonymizeClaims(user);
      documents := DeletePersonalDocuments(user);
      GoneIsFinal(View(), user);
    }
  }

  function OwnOf(own: set<OwnId>, user: string): set<OwnId> { set o | o in own && o.user == user }

  function DocsOf(docs: map<DocId, string>, user: string): set<DocId> { set d | d in docs && docs[d] == user }

  lemma OwnShrinks(own: set<OwnId>, o: OwnId)
    requires o in own
    ensures |OwnOf(own - {o}, o.user)| == |OwnOf(own, o.user)| - 1
  {
    assert OwnOf(own - {o}, o.user) == OwnOf(own, o.user) - {o};
  }

  lemma DocsShrink(docs: map<DocId, string>, collection: Collection, user: string)
    ensures |DocsOf(docs, user)|
         == |DocsOf(docs - Matching(docs, collection, user), user)| + |Matching(docs, collection, user)|
  {
    var gone := Matching(docs, collection, user);
    assert DocsOf(docs, user) == DocsOf(docs - gone, user) + gone;
  }

  const OWN_COLLECTIONS := [Users, Wallets, NotificationPreferences]

  const FIELD_COLLECTIONS := [
    Sessions, Entries, Ownership, Quotas, Acquisitions, RewardContexts, AiGenerations,
    PushDevices, Notifications, NotificationDeliveries, Identities]

  lemma OwnCovered(own: set<OwnId>, user: string)
    requires forall j :: 0 <= j < |OWN_COLLECTIONS| ==> OwnId(OWN_COLLECTIONS[j], user) !in own
    ensures forall o :: o in own ==> o.user != user
  {
    forall o | o in own ensures o.user != user {
      var j := match o.collection case Users => 0 case Wallets => 1 case NotificationPreferences => 2;
      assert OWN_COLLECTIONS[j] == o.collection;
    }
  }

  lemma DocsCovered(docs: map<DocId, string>, user: string)
    requires forall j, d :: 0 <= j < |FIELD_COLLECTIONS| && d in docs && d.collection == FIELD_COLLECTIONS[j] ==>
               docs[d] != user
    ensures forall d :: d in docs ==> docs[d] != user
  {
    forall d | d in docs ensures docs[d] != user {
      var j := match d.collection
               case Sessions => 0 case Entries => 1 case Ownership => 2 case Quotas => 3 case Acquisitions => 4
               case RewardContexts => 5 case AiGenerations => 6 case PushDevices => 7 case Notifications => 8
               case NotificationDeliveries => 9 case Identities => 10;
      assert FIELD_COLLECTIONS[j] == d.collection;
    }
  }
}
