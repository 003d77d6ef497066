/** Two ways in which the marketplace falls short: a run that lifts a shared block,
    so that the source of a listing that is still down goes up again under a new
    listing; and a takedown whose notification raises. */
module MarketLimits {
  import opened Wrappers
  import opened LedgerModel
  import opened StagedMoves
  import opened MarketModel
  import opened MarketInvariant
  import opened MarketBooks
  import opened MarketTakedowns
  import opened MarketTheorems

  lemma {:induction false} RunAppend(s: Shop, ops: seq<Op>, op: Op)
    ensures Run(s, ops + [op]) == Step(Run(s, ops), op).0
    ensures ValidRun(s, ops + [op]) <==> ValidRun(s, ops) && ValidOp(Run(s, ops), op)
    decreases |ops|
  {
    if ops == [] {
      assert ops + [op] == [op] && [op][1..] == [];
    } else {
      assert (ops + [op])[0] == ops[0] && (ops + [op])[1..] == ops[1..] + [op];
      RunAppend(Step(s, ops[0]).0, ops[1..], op);
    }
  }

  /** `s` can be reached by a valid run from nothing. */
  ghost predicate Reachable(s: Shop) { exists ops :: Valid(ops) && After(ops) == s }

  lemma StartIsReachable()
    ensures Reachable(EMPTY_SHOP)
  {
    assert Valid([]) && After([]) == EMPTY_SHOP;
  }

  lemma StepIsReachable(s: Shop, op: Op, t: Shop)
    requires Reachable(s) && ValidOp(s, op) && Step(s, op).0 == t
    ensures Reachable(t)
  {
    var ops :| Valid(ops) && After(ops) == s;
    RunAppend(EMPTY_SHOP, ops, op);
    assert Valid(ops + [op]) && After(ops + [op]) == t;
  }

  function NewDraft(seller: string, title: string, snap: string): Listing {
    Listing(seller, Mirror, title, 0, snap, Draft, false, 0, 0, None, Active)
  }

  /** One snapshot and two drafts made from it. */
  function TwoDrafts(seller: string, source: string, snap: string, a: string, b: string): Shop {
    EMPTY_SHOP.(snapshots := map[snap := Snapshot(seller, source, true)],
                listings := map[a := NewDraft(seller, a, snap)][b := NewDraft(seller, b, snap)])
  }

  lemma TwoDraftsReachable(seller: string, source: string, snap: string, a: string, b: string)
    requires a != b
    ensures Reachable(TwoDrafts(seller, source, snap, a, b))
  {
    StartIsReachable();
    var s1 := EMPTY_SHOP.(snapshots := map[snap := Snapshot(seller, source, true)]);
    assert EMPTY_SHOP.snapshots[snap := Snapshot(seller, source, true)] == s1.snapshots;
    StepIsReachable(EMPTY_SHOP, DoSnapshot(snap, Snapshot(seller, source, true)), s1);
    var s2 := s1.(listings := map[a := NewDraft(seller, a, snap)]);
    assert s1.listings[a := NewDraft(seller, a, snap)] == s2.listings;
    StepIsReachable(s1, DoDraft(a, seller, Mirror, a, 0, snap), s2);
    StepIsReachable(s2, DoDraft(b, seller, Mirror, b, 0, snap), TwoDrafts(seller, source, snap, a, b));
  }

  /** A movement that is new and affordable lands. */
  lemma FreshLands(l: Ledger, m: Move)
    requires m.Key() !in l.applied && WalletOf(l, m.user).balance + m.delta >= 0
    ensures Stage(l, {}, m).Success? && Stage(l, {}, m).value.Fresh?
    ensures var after := Landed(l, Stage(l, {}, m).value);
            && WalletOf(after, m.user).balance == WalletOf(l, m.user).balance + m.delta
            && after.applied.Keys == l.applied.Keys + {m.Key()}
  {
  }

  /** What a first takedown of a listing with a known source leaves behind. */
  lemma TakedownFacts(s: Shop, id: string, actor: string)
    requires id in s.listings && s.listings[id].moderation.Active?
    requires BlockOf(s, s.listings[id]).Some? && WalletOf(s.ledger, s.listings[id].seller).balance >= 0
    requires CompensationMove(id, s.listings[id]).Key() !in s.ledger.applied
    ensures var t, x := Takedown(s, id, actor).0, s.listings[id];
            && t.listings == s.listings[id := x.(moderation := Removed)] && t.snapshots == s.snapshots
            && t.blocks == s.blocks[BlockOf(s, x).value := id] && t.titles == s.titles
            && WalletOf(t.ledger, x.seller).balance == WalletOf(s.ledger, x.seller).balance + COMPENSATION
            && t.ledger.applied.Keys == s.ledger.applied.Keys + {CompensationMove(id, x).Key()}
  {
    FreshLands(s.ledger, CompensationMove(id, s.listings[id]));
  }

  /** The first is taken down. */
  lemma FirstDown(seller: string, source: string, snap: string, a: string, b: string, actor: string) returns (t: Shop)
    requires a != b && source != ""
    ensures Reachable(t) && t.listings.Keys == {a, b}
    ensures t.listings[a] == NewDraft(seller, a, snap).(moderation := Removed)
    ensures t.listings[b] == NewDraft(seller, b, snap)
    ensures t.snapshots == map[snap := Snapshot(seller, source, true)] && t.titles == map[]
    ensures t.blocks == map[BlockId(seller, Mirror, source) := a]
    ensures WalletOf(t.ledger, seller).balance == COMPENSATION
    ensures CompensationMove(b, NewDraft(seller, b, snap)).Key() !in t.ledger.applied
  {
    var s := TwoDrafts(seller, source, snap, a, b);
    TwoDraftsReachable(seller, source, snap, a, b);
    TakedownFacts(s, a, actor);
    t := Takedown(s, a, actor).0;
    StepIsReachable(s, DoTakedown(a, actor, true), t);
  }

  /** Both are taken down; the block now names the second. */
  lemma BothDown(seller: string, source: string, snap: string, a: string, b: string, actor: string) returns (u: Shop)
    requires a != b && source != ""
    ensures Reachable(u) && u.listings.Keys == {a, b}
    ensures u.listings[a] == NewDraft(seller, a, snap).(moderation := Removed)
    ensures u.listings[b] == NewDraft(seller, b, snap).(moderation := Removed)
    ensures u.snapshots == map[snap := Snapshot(seller, source, true)] && u.titles == map[]
    ensures u.blocks == map[BlockId(seller, Mirror, source) := b]
    ensures WalletOf(u.ledger, seller).balance == 2 * COMPENSATION
  {
    var t := FirstDown(seller, source, snap, a, b, actor);
    TakedownFacts(t, b, actor);
    u := Takedown(t, b, actor).0;
    StepIsReachable(t, DoTakedown(b, actor, true), u);
  }

  /** The later one is restored, which frees the source of both. */
  lemma OneRestored(seller: string, source: string, snap: string, a: string, b: string, actor: string) returns (v: Shop)
    requires a != b && source != ""
    ensures Reachable(v) && v.listings.Keys == {a, b} && v.blocks == map[] && v.titles == map[]
    ensures v.listings[a] == NewDraft(seller, a, snap).(moderation := Removed)
    ensures v.snapshots == map[snap := Snapshot(seller, source, true)]
    ensures WalletOf(v.ledger, seller).balance == 2 * COMPENSATION
  {
    var u := BothDown(seller, source, snap, a, b, actor);
    v := Restore(u, b, actor).0;
    StepIsReachable(u, DoRestore(b, actor), v);
  }

  /** Two listings of one source are taken down and the later one is restored:
      the first is still removed, but its source is free, and the compensations
      of the two takedowns pay for publishing it again. */
  lemma RestoreFreesAnothersSource(seller: string, source: string, snap: string, a: string, b: string, c: string,
                                   actor: string)
    requires a != b && a != c && b != c && source != ""
    ensures exists s ::
              && Reachable(s) && !Covered(s)
              && a in s.listings && s.listings[a].moderation.Removed?
              && c in s.listings && s.listings[c].status.Published?
              && BlockOf(s, s.listings[a]).Some? && BlockOf(s, s.listings[c]) == BlockOf(s, s.listings[a])
  {
    var v := OneRestored(seller, source, snap, a, b, actor);
    var w := SetListing(v, c, NewDraft(seller, c, snap));
    StepIsReachable(v, DoDraft(c, seller, Mirror, c, 0, snap), w);
    RepublishedByReward(w, c, seller, BlockId(seller, Mirror, source));
    var end := Publish(w, c, seller, 0).0;
    StepIsReachable(w, DoPublish(c, seller, 0), end);
    assert BlockOf(end, end.listings[a]) == Some(BlockId(seller, Mirror, source));
  }

  lemma RepublishedByReward(w: Shop, c: string, seller: string, block: BlockId)
    requires c in w.listings && w.listings[c].seller == seller && w.listings[c].status.Draft?
    requires w.listings[c].moderation.Active? && !w.listings[c].feePaid
    requires w.listings[c].snapshot in w.snapshots && w.snapshots[w.listings[c].snapshot].seller == seller
    requires BlockOf(w, w.listings[c]) == Some(block) && block !in w.blocks && w.listings[c].title !in w.titles
    requires WalletOf(w.ledger, seller).balance >= FEE
    ensures var t := Publish(w, c, seller, 0).0;
            && c in t.listings && t.listings[c].status.Published? && SameIdentity(w.listings[c], t.listings[c])
            && t.listings == w.listings[c := t.listings[c]] && t.snapshots == w.snapshots && t.blocks == w.blocks
  {
  }

  /** A listing that was never taken down is up and was never compensated. */
  lemma NeverDownFacts(s: Shop, id: string)
    requires Inv(s) && id in s.listings && !EverDown(s, id)
    ensures !s.listings[id].moderation.Removed? && !Compensated(s, id)
    ensures WalletOf(s.ledger, s.listings[id].seller).balance >= 0
  {
    assert LogOk(s) && KeysOk(s);
    if Compensated(s, id) { CompensatedWereDown(s, id); }
    SellersHaveWallets(s, id);
  }

  /** A first takedown whose notification raises is not all or nothing: the listing
      is down and logged, the seller has no compensation, and taking the listing
      down again changes nothing. Only a restore lets the next takedown pay. */
  lemma UnnoticedTakedownPaysNothing(s: Shop, id: string, actor: string, again: string)
    requires Inv(s) && id in s.listings && !EverDown(s, id)
    ensures var (t, r) := UnnoticedTakedown(s, id, actor);
            && r.Failure? && t.ledger == s.ledger && Inv(t)
            && WasDown(t, id) && t.listings[id].moderation.Removed? && !Compensated(t, id)
            && Takedown(t, id, again) == (t, Success(false))
            && (!s.listings[id].status.Deleted? ==> Compensated(Takedown(Restore(t, id, actor).0, id, again).0, id))
            && (s.listings[id].status.Deleted? ==> forall ops :: !PaidAfter(t, ops, id))
  {
    NeverDownFacts(s, id);
    UnnoticedIsSilent(s, id, actor);
    var t := UnnoticedTakedown(s, id, actor).0;
    StepKeepsInv(s, DoTakedown(id, actor, false));
    StepTakesDown(s, DoTakedown(id, actor, false), id);
    if s.listings[id].status.Deleted? {
      CompensationCanStillCome(t, id);
    } else {
      RestoreLetsPay(t, id, actor, again);
    }
  }
}
