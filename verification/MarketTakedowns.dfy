/** Takedowns and their compensation: which takedowns are compensated, exactly when
    one is not, and exactly when that can be made up for. */
module MarketTakedowns {
  import opened Wrappers
  import opened LedgerModel
  import opened StagedMoves
  import opened MarketModel
  import opened MarketInvariant
  import opened MarketBooks
  import Theorems = LedgerTheorems

  /** This operation takes the listing down. */
  predicate TakesDown(s: Shop, op: Op, id: string) {
    op.DoTakedown? && op.id == id && id in s.listings && !s.listings[id].moderation.Removed?
  }

  /** ... and its seller is told. */
  predicate Pays(s: Shop, op: Op, id: string) { TakesDown(s, op, id) && op.notified }

  // One operation.

  lemma SellersHaveWallets(s: Shop, id: string)
    requires Inv(s) && id in s.listings
    ensures WalletOf(s.ledger, s.listings[id].seller).balance >= 0
  {
    assert Runs.Sound(s.ledger);
  }

  /** A compensation is new and affordable, or it was paid before. */
  lemma TakedownPays(s: Shop, id: string, actor: string)
    requires id in s.listings && !s.listings[id].moderation.Removed?
    requires WalletOf(s.ledger, s.listings[id].seller).balance >= 0
    ensures var (t, r) := Takedown(s, id, actor);
            && r == Success(true) && Compensated(t, id)
            && t.listings == s.listings[id := s.listings[id].(moderation := Removed)]
            && t.log == s.log + [ModerationEvent(id, TookDown, actor)]
            && forall k :: k in t.ledger.applied <==>
                 k in s.ledger.applied || k == CompensationMove(id, s.listings[id]).Key()
  {
  }

  lemma UnnoticedIsSilent(s: Shop, id: string, actor: string)
    requires id in s.listings && !s.listings[id].moderation.Removed?
    requires WalletOf(s.ledger, s.listings[id].seller).balance >= 0
    ensures var (t, r) := UnnoticedTakedown(s, id, actor);
            && r == Failure(NotificationFailed) && t.ledger == s.ledger
            && t.listings == s.listings[id := s.listings[id].(moderation := Removed)]
            && t.log == s.log + [ModerationEvent(id, TookDown, actor)]
  {
    TakedownPays(s, id, actor);
  }

  lemma TakedownStepCompensates(s: Shop, op: Op, id: string)
    requires Inv(s) && op.DoTakedown?
    ensures Compensated(Step(s, op).0, id) <==> Compensated(s, id) || Pays(s, op, id)
  {
    if op.id in s.listings && !s.listings[op.id].moderation.Removed? {
      SellersHaveWallets(s, op.id);
      if op.notified {
        NotifiedCompensates(s, op.id, op.actor, id);
      } else {
        UnnoticedIsSilent(s, op.id, op.actor);
        EditCompensatesNothing(s, Step(s, op).0, op.id, id);
      }
    }
  }

  lemma NotifiedCompensates(s: Shop, at: string, actor: string, id: string)
    requires at in s.listings && !s.listings[at].moderation.Removed?
    requires WalletOf(s.ledger, s.listings[at].seller).balance >= 0
    ensures Compensated(Takedown(s, at, actor).0, id) <==> Compensated(s, id) || id == at
  {
    TakedownPays(s, at, actor);
    var t := Takedown(s, at, actor).0;
    if id in s.listings {
      var k := CompensationMove(id, s.listings[id]).Key();
      assert k in t.ledger.applied <==> k in s.ledger.applied || id == at;
    }
  }

  lemma EditCompensatesNothing(s: Shop, t: Shop, at: string, id: string)
    requires Edited(s, t, at) && SameCompensations(s.ledger, t.ledger)
    ensures Compensated(t, id) <==> Compensated(s, id)
  {
  }

  lemma FeeCompensatesNothing(l: Ledger, id: string, x: Listing)
    requires Stage(l, {}, FeeMove(id, x)).Success?
    ensures SameCompensations(l, Landed(l, Stage(l, {}, FeeMove(id, x)).value))
  {
  }

  lemma SellerStepCompensates(s: Shop, op: Op, id: string)
    requires SellerOp(op)
    ensures Compensated(Step(s, op).0, id) <==> Compensated(s, id)
  {
    var t := Step(s, op).0;
    if t != s {
      SellerEdits(s, op);
      if op.DoPublish? {
        PublishEdits(s, op.id, op.seller, op.now);
        if !s.listings[op.id].feePaid { FeeCompensatesNothing(s.ledger, op.id, s.listings[op.id]); }
      } else {
        DownEdits(s, op);
      }
      EditCompensatesNothing(s, t, op.id, id);
    }
  }

  lemma BuyerStepCompensates(s: Shop, op: Op, id: string)
    requires Inv(s) && BuyerOp(op)
    ensures Compensated(Step(s, op).0, id) <==> Compensated(s, id)
  {
    var t := Step(s, op).0;
    if t != s {
      if op.DoAcquire? {
        AcquireEdits(s, op.id, op.buyer);
        PurchaseIsFresh(s, Pair(op.buyer, op.id));
        PaidCompensatesNothing(s.ledger, Pair(op.buyer, op.id), s.listings[op.id]);
      } else {
        LikeEdits(s, op);
      }
      EditCompensatesNothing(s, t, op.id, id);
    }
  }

  lemma DraftStepCompensates(s: Shop, op: Op, id: string)
    requires KeysOk(s) && op.DoDraft? && ValidOp(s, op)
    ensures Compensated(Step(s, op).0, id) <==> Compensated(s, id)
  {
    var t := Step(s, op).0;
    if t != s {
      DraftAdds(s, op);
      assert !Justified(s, CompensationMove(op.id, t.listings[op.id]).Key());
    }
  }

  /** A compensation is paid by a takedown that its seller is told of, and by
      nothing else. */
  lemma StepCompensates(s: Shop, op: Op, id: string)
    requires Inv(s) && ValidOp(s, op)
    ensures Compensated(Step(s, op).0, id) <==> Compensated(s, id) || Pays(s, op, id)
  {
    if op.DoTakedown? {
      TakedownStepCompensates(s, op, id);
    } else if SellerOp(op) {
      SellerStepCompensates(s, op, id);
    } else if BuyerOp(op) {
      BuyerStepCompensates(s, op, id);
    } else if op.DoRestore? {
      if Step(s, op).0 != s {
        OperatorEdits(s, op);
        EditCompensatesNothing(s, Step(s, op).0, op.id, id);
      }
    } else if op.DoDraft? {
      DraftStepCompensates(s, op, id);
    } else if op.Elsewhere? {
      Theorems.StepExtends(s.ledger, op.other);
      ElsewhereCompensatesNothing(s, op.other, id);
    }
  }

  /** The log first names a listing when it is first taken down. */
  lemma StepTakesDown(s: Shop, op: Op, id: string)
    requires Inv(s) && ValidOp(s, op)
    ensures WasDown(Step(s, op).0, id) <==> WasDown(s, id) || TakesDown(s, op, id)
  {
    if SellerOp(op) {
      SellerFrame(s, op);
    } else if BuyerOp(op) {
      BuyerFrame(s, op);
    } else if OperatorOp(op) {
      OperatorStepTakesDown(s, op, id);
    } else if op.DoDraft? {
      DraftTakesNothingDown(s, op, id);
    }
  }

  lemma DraftTakesNothingDown(s: Shop, op: Op, id: string)
    requires LogOk(s) && op.DoDraft? && ValidOp(s, op)
    ensures WasDown(Step(s, op).0, id) <==> WasDown(s, id)
  {
    if Step(s, op).0 != s {
      DraftAdds(s, op);
      assert forall e :: e in s.log ==> e.listing != op.id;
      NeverMentioned(s.log, op.id);
    }
  }

  lemma OperatorStepTakesDown(s: Shop, op: Op, id: string)
    requires Inv(s) && OperatorOp(op)
    ensures WasDown(Step(s, op).0, id) <==> WasDown(s, id) || TakesDown(s, op, id)
  {
    if Step(s, op).0 != s {
      OperatorEdits(s, op);
      assert s.listings[op.id].moderation.Removed? ==> EverDown(s, op.id);
      LastActionAppend(s.log, ModerationEvent(op.id, if op.DoTakedown? then TookDown else Restored, op.actor), id);
    } else if op.DoTakedown? && op.id in s.listings && !s.listings[op.id].moderation.Removed? {
      SellersHaveWallets(s, op.id);
      TakedownPays(s, op.id, op.actor);
      UnnoticedIsSilent(s, op.id, op.actor);
    }
  }

  // All takedowns.

  /** Every listing ever taken down was compensated. */
  ghost predicate AllCompensated(s: Shop) { forall id :: WasDown(s, id) ==> Compensated(s, id) }

  /** The first takedown of a listing, and its notification raises. */
  predicate LosesCompensation(s: Shop, op: Op) {
    op.DoTakedown? && !op.notified && op.id in s.listings && !EverDown(s, op.id)
  }

  /** Nobody is compensated for a listing that was never down. */
  lemma CompensatedWereDown(s: Shop, id: string)
    requires KeysOk(s) && Compensated(s, id)
    ensures WasDown(s, id)
  {
    assert Justified(s, CompensationMove(id, s.listings[id]).Key());
  }

  /** A takedown and its compensation go together under every operation except one:
      the first takedown of a listing whose notification raises. */
  lemma CompensationIsLostExactlyThere(s: Shop, op: Op)
    requires Inv(s) && ValidOp(s, op) && AllCompensated(s)
    ensures AllCompensated(Step(s, op).0) <==> !LosesCompensation(s, op)
  {
    var t := Step(s, op).0;
    if LosesCompensation(s, op) {
      assert LogOk(s);
      StepTakesDown(s, op, op.id);
      StepCompensates(s, op, op.id);
      assert !Compensated(s, op.id) by { if Compensated(s, op.id) { CompensatedWereDown(s, op.id); } }
      assert WasDown(t, op.id) && !Compensated(t, op.id);
    } else {
      forall id | WasDown(t, id) ensures Compensated(t, id) {
        StepTakesDown(s, op, id);
        StepCompensates(s, op, id);
        assert WasDown(s, id) ==> Compensated(s, id);
      }
    }
  }

  // Whole runs.

  predicate AllNotified(ops: seq<Op>) { forall op :: op in ops ==> op.DoTakedown? ==> op.notified }

  lemma {:induction false} NotifiedRunsCompensate(s: Shop, ops: seq<Op>)
    requires Inv(s) && ValidRun(s, ops) && AllNotified(ops) && AllCompensated(s)
    ensures AllCompensated(Run(s, ops))
    decreases |ops|
  {
    if ops != [] {
      assert ops[0] in ops && forall op :: op in ops[1..] ==> op in ops;
      StepKeepsInv(s, ops[0]);
      CompensationIsLostExactlyThere(s, ops[0]);
      NotifiedRunsCompensate(Step(s, ops[0]).0, ops[1..]);
    }
  }

  /** Some takedown of the run took this listing down and its seller was told. */
  predicate EverPays(s: Shop, ops: seq<Op>, id: string)
    decreases |ops|
  {
    ops != [] && (Pays(s, ops[0], id) || EverPays(Step(s, ops[0]).0, ops[1..], id))
  }

  lemma {:induction false} RunCompensates(s: Shop, ops: seq<Op>, id: string)
    requires Inv(s) && ValidRun(s, ops)
    ensures Compensated(Run(s, ops), id) <==> Compensated(s, id) || EverPays(s, ops, id)
    decreases |ops|
  {
    if ops != [] {
      StepKeepsInv(s, ops[0]);
      StepCompensates(s, ops[0], id);
      RunCompensates(Step(s, ops[0]).0, ops[1..], id);
    }
  }

  /** Compensations are paid for listings that were taken down, and for all of them
      if every seller was told. */
  lemma PaidBackAreDown(s: Shop)
    requires KeysOk(s)
    ensures PaidBack(s) <= TakenDown(s) && (AllCompensated(s) ==> PaidBack(s) == TakenDown(s))
  {
    forall id | id in PaidBack(s) ensures id in TakenDown(s) {
      CompensatedWereDown(s, id);
    }
    if AllCompensated(s) {
      forall id | id in TakenDown(s) ensures id in PaidBack(s) {
        assert WasDown(s, id);
      }
    }
  }

  // Making up for a lost compensation.

  /** Down for good: no operator can restore it. */
  predicate GoneForGood(s: Shop, id: string) {
    id in s.listings && s.listings[id].moderation.Removed? && s.listings[id].status.Deleted?
  }

  lemma GoneStaysGone(s: Shop, op: Op, id: string)
    requires GoneForGood(s, id) && ValidOp(s, op)
    ensures GoneForGood(Step(s, op).0, id) && !Pays(s, op, id)
  {
    if Step(s, op).0 != s {
      if SellerOp(op) {
        SellerEdits(s, op);
        SellerAxis(s, op);
      } else if BuyerOp(op) {
        BuyerFrame(s, op);
      } else if OperatorOp(op) {
        OperatorEdits(s, op);
      } else if op.DoDraft? {
        DraftAdds(s, op);
      }
    }
  }

  lemma {:induction false} GoneIsNeverPaid(s: Shop, ops: seq<Op>, id: string)
    requires GoneForGood(s, id) && ValidRun(s, ops)
    ensures !EverPays(s, ops, id)
    decreases |ops|
  {
    if ops != [] {
      GoneStaysGone(s, ops[0], id);
      GoneIsNeverPaid(Step(s, ops[0]).0, ops[1..], id);
    }
  }

  /** A lost compensation comes with the next takedown after a restore. */
  lemma RestoreLetsPay(s: Shop, id: string, actor: string, again: string)
    requires Inv(s) && id in s.listings && s.listings[id].moderation.Removed? && !s.listings[id].status.Deleted?
    ensures var u := Restore(s, id, actor).0;
            var (t, r) := Takedown(u, id, again);
            u.ledger == s.ledger && r == Success(true) && Compensated(t, id)
  {
    StepKeepsInv(s, DoRestore(id, actor));
    var u := Restore(s, id, actor).0;
    SellersHaveWallets(u, id);
    TakedownPays(u, id, again);
  }

  /** This run ends with the compensation paid. */
  predicate PaidAfter(s: Shop, ops: seq<Op>, id: string) { ValidRun(s, ops) && Compensated(Run(s, ops), id) }

  lemma CompensationComes(s: Shop, id: string) returns (ops: seq<Op>)
    requires Inv(s) && id in s.listings && s.listings[id].moderation.Removed? && !s.listings[id].status.Deleted?
    ensures PaidAfter(s, ops, id)
  {
    var restore, takedown := DoRestore(id, ""), DoTakedown(id, "", true);
    RestoreLetsPay(s, id, "", "");
    TwoSteps(s, restore, takedown);
    ops := [restore, takedown];
  }

  lemma CompensationNeverComes(s: Shop, ops: seq<Op>, id: string)
    requires Inv(s) && GoneForGood(s, id) && !Compensated(s, id)
    ensures !PaidAfter(s, ops, id)
  {
    if ValidRun(s, ops) {
      RunCompensates(s, ops, id);
      GoneIsNeverPaid(s, ops, id);
    }
  }

  /** A removed listing that was not compensated still can be, in some run from
      here, if and only if its seller has not deleted it. */
  lemma CompensationCanStillCome(s: Shop, id: string)
    requires Inv(s) && id in s.listings && s.listings[id].moderation.Removed? && !Compensated(s, id)
    ensures (exists ops :: PaidAfter(s, ops, id)) <==> !s.listings[id].status.Deleted?
  {
    if s.listings[id].status.Deleted? {
      forall ops ensures !PaidAfter(s, ops, id) {
        CompensationNeverComes(s, ops, id);
      }
    } else {
      var ops := CompensationComes(s, id);
    }
  }

  lemma TwoSteps(s: Shop, a: Op, b: Op)
    requires ValidOp(s, a) && ValidOp(Step(s, a).0, b)
    ensures ValidRun(s, [a, b]) && Run(s, [a, b]) == Step(Step(s, a).0, b).0
  {
    var both := [a, b];
    assert both[0] == a && both[1..] == [b];
    var u := Step(s, a).0;
    assert [b][0] == b && [b][1..] == [];
    assert Run(u, [b]) == Run(Step(u, b).0, []) && ValidRun(u, [b]);
  }
}
