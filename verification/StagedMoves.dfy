/** Movements staged in a caller-owned transaction (`apply_in_transaction`) and
    their relation to movements applied one by one. */
module StagedMoves {
  import opened Wrappers
  import opened LedgerModel
  import opened LedgerInvariant
  import opened Transactions

  /** A movement as `apply_in_transaction` receives it; its key is derived from it. */
  datatype Move = Move(user: string, delta: int, reason: ShardReason, event: Event) {
    function Key(): Key { LedgerModel.Key.Key(user, reason, event) }
  }

  datatype Staging = Fresh(entry: Entry, wallet: Wallet) | Duplicate(existing: Entry)

  /** Reads see the committed ledger `l` only; `changed` is the set of wallets this
      attempt has already claimed. */
  function Stage(l: Ledger, changed: set<string>, m: Move): Result<Staging, ShardError> {
    if m.Key() in l.applied then Success(Duplicate(l.applied[m.Key()]))
    else if m.user in changed then Failure(WalletAlreadyChanged)
    else if WalletOf(l, m.user).balance + m.delta < 0 then Failure(InsufficientShards)
    else
      var wallet := Moved(WalletOf(l, m.user), m.delta);
      Success(Fresh(Entry(m.user, m.delta, wallet.balance, m.reason, Some(m.Key())), wallet))
  }

  /** Remove the first occurrence, as `list.remove` does. */
  function RemoveFirst(es: seq<Entry>, e: Entry): seq<Entry> {
    if es == [] then []
    else if es[0] == e then es[1..]
    else [es[0]] + RemoveFirst(es[1..], e)
  }

  /** The undo of a staged write: `previous` is the wallet it replaced, if any. */
  function TakenBack(l: Ledger, e: Entry, previous: Option<Wallet>): Ledger {
    l.(wallets := if previous.Some? then l.wallets[e.user := previous.value] else l.wallets - {e.user},
       entries := RemoveFirst(l.entries, e),
       applied := if e.key.Some? then l.applied - {e.key.value} else l.applied)
  }

  /** The write a fresh staging adds to the transaction. */
  function WriteOf(e: Entry, w: Wallet): Transactions.Write<Ledger> {
    (l: Ledger) =>
         var previous := if e.user in l.wallets then Some(l.wallets[e.user]) else None;
         Applied(LedgerModel.Write(l, e, w), (l': Ledger) => TakenBack(l', e, previous))
  }

  lemma {:induction false} RemoveAppended(es: seq<Entry>, e: Entry)
    requires e !in es
    ensures RemoveFirst(es + [e], e) == es
  {
    if es != [] {
      assert (es + [e])[0] == es[0] && (es + [e])[1..] == es[1..] + [e];
      RemoveAppended(es[1..], e);
    }
  }

  /** Every keyed entry is in the key index. */
  ghost predicate Indexed(l: Ledger) {
    forall e :: e in l.entries && e.key.Some? ==> e.key.value in l.applied
  }

  lemma CoreIsIndexed(l: Ledger)
    requires Core(l)
    ensures Indexed(l)
  {
  }

  lemma TakenBackRestores(l: Ledger, e: Entry, w: Wallet)
    requires e !in l.entries && e.key.Some? && e.key.value !in l.applied
    ensures TakenBack(LedgerModel.Write(l, e, w), e, if e.user in l.wallets then Some(l.wallets[e.user]) else None) == l
  {
    RemoveAppended(l.entries, e);
    var back := TakenBack(LedgerModel.Write(l, e, w), e, if e.user in l.wallets then Some(l.wallets[e.user]) else None);
    assert back.wallets == l.wallets && back.applied == l.applied;
  }

  /** A shard write whose key is new is exactly reversible. */
  lemma WriteIsReversible(l: Ledger, e: Entry, w: Wallet)
    requires Indexed(l) && e.key.Some? && e.key.value !in l.applied
    ensures var r := WriteOf(e, w)(l);
            r.Applied? && r.state == LedgerModel.Write(l, e, w) && r.undo(r.state) == l
  {
    TakenBackRestores(l, e, w);
  }

  /** What a batch answers for one movement. */
  datatype Done = Done(entry: Entry, applied: bool)

  /** Stage a batch against the committed ledger. The result lists the fresh
      writes and the answer to each movement, or the first exception. */
  function StageAll(l: Ledger, changed: set<string>, moves: seq<Move>)
    : Result<(seq<(Entry, Wallet)>, seq<Done>), ShardError>
    decreases |moves|
  {
    if moves == [] then Success(([], []))
    else
      match Stage(l, changed, moves[0])
      case Failure(e) => Failure(e)
      case Success(Duplicate(existing)) =>
        (match StageAll(l, changed, moves[1..])
         case Failure(e) => Failure(e)
         case Success(rest) => Success((rest.0, [Done(existing, false)] + rest.1)))
      case Success(Fresh(entry, wallet)) =>
        (match StageAll(l, changed + {moves[0].user}, moves[1..])
         case Failure(e) => Failure(e)
         case Success(rest) => Success(([(entry, wallet)] + rest.0, [Done(entry, true)] + rest.1)))
  }

  /** Apply a batch one movement at a time through the ordinary `apply`. */
  function SerialAll(l: Ledger, moves: seq<Move>): Result<(Ledger, seq<Done>), ShardError>
    decreases |moves|
  {
    if moves == [] then Success((l, []))
    else
      var m := moves[0];
      var (next, r) := ApplyKeyed(l, m.user, m.delta, m.reason, m.event);
      match r
      case Failure(e) => Failure(e)
      case Success(done) =>
        match SerialAll(next, moves[1..])
        case Failure(e) => Failure(e)
        case Success(rest) => Success((rest.0, [Done(done.entry, done.applied)] + rest.1))
  }

  function WriteAll(l: Ledger, writes: seq<(Entry, Wallet)>): Ledger
    decreases |writes|
  {
    if writes == [] then l else WriteAll(LedgerModel.Write(l, writes[0].0, writes[0].1), writes[1..])
  }

  /** `now` is `l` with some writes done, all of them to wallets in `changed`. */
  ghost predicate Ahead(l: Ledger, changed: set<string>, now: Ledger) {
    && (forall u :: u !in changed ==> WalletOf(now, u) == WalletOf(l, u))
    && (forall k :: k in l.applied ==> k in now.applied && now.applied[k] == l.applied[k])
    && (forall k :: k in now.applied && k !in l.applied ==> k.user in changed)
  }

  /** No two fresh movements of the batch change the same wallet. */
  ghost predicate WalletsApart(l: Ledger, changed: set<string>, moves: seq<Move>)
    decreases |moves|
  {
    moves == [] ||
    if moves[0].Key() in l.applied then WalletsApart(l, changed, moves[1..])
    else moves[0].user !in changed && WalletsApart(l, changed + {moves[0].user}, moves[1..])
  }

  lemma {:induction false} StagedFrom(l: Ledger, changed: set<string>, now: Ledger, moves: seq<Move>)
    requires Ahead(l, changed, now)
    ensures StageAll(l, changed, moves).Success? <==> WalletsApart(l, changed, moves) && SerialAll(now, moves).Success?
    ensures StageAll(l, changed, moves).Success? ==>
              SerialAll(now, moves) == Success((WriteAll(now, StageAll(l, changed, moves).value.0),
                                                StageAll(l, changed, moves).value.1))
    decreases |moves|
  {
    if moves != [] {
      var m := moves[0];
      var (next, r) := ApplyKeyed(now, m.user, m.delta, m.reason, m.event);
      if m.Key() in l.applied {
        StagedFrom(l, changed, now, moves[1..]);
      } else if m.user !in changed {
        assert WalletOf(now, m.user) == WalletOf(l, m.user);
        assert m.Key() !in now.applied;
        if r.Success? {
          assert next == LedgerModel.Write(now, r.value.entry, r.value.wallet);
          StagedFrom(l, changed + {m.user}, next, moves[1..]);
        }
      }
    }
  }

  /** A staged batch refines serial execution: it is accepted exactly when no
      wallet is changed twice and every movement would succeed one by one, and
      then it writes the same ledger and answers every movement alike. */
  lemma StagedRefinesSerial(l: Ledger, moves: seq<Move>)
    ensures StageAll(l, {}, moves).Success? <==> WalletsApart(l, {}, moves) && SerialAll(l, moves).Success?
    ensures StageAll(l, {}, moves).Success? ==>
              var staged := StageAll(l, {}, moves).value;
              SerialAll(l, moves) == Success((WriteAll(l, staged.0), staged.1))
  {
    StagedFrom(l, {}, l, moves);
  }

  /** Why a batch is refused: a wallet is changed twice, or shards are missing; and if
      shards are missing, the batch fails one by one for the same reason. */
  lemma {:induction false} StagedFailsAlike(l: Ledger, changed: set<string>, now: Ledger, moves: seq<Move>)
    requires Ahead(l, changed, now) && StageAll(l, changed, moves).Failure?
    ensures StageAll(l, changed, moves) == Failure(WalletAlreadyChanged) ==> !WalletsApart(l, changed, moves)
    ensures StageAll(l, changed, moves) != Failure(WalletAlreadyChanged) ==>
              StageAll(l, changed, moves) == Failure(InsufficientShards)
              && SerialAll(now, moves) == Failure(InsufficientShards)
    decreases |moves|
  {
    var m := moves[0];
    var (next, r) := ApplyKeyed(now, m.user, m.delta, m.reason, m.event);
    if m.Key() in l.applied {
      StagedFailsAlike(l, changed, now, moves[1..]);
    } else if m.user !in changed {
      assert WalletOf(now, m.user) == WalletOf(l, m.user) && m.Key() !in now.applied;
      if r.Success? {
        assert next == LedgerModel.Write(now, r.value.entry, r.value.wallet);
        StagedFailsAlike(l, changed + {m.user}, next, moves[1..]);
      }
    }
  }

  /** The transaction's write list for staged entries. */
  function Writes(staged: seq<(Entry, Wallet)>): seq<Transactions.Write<Ledger>> {
    if staged == [] then [] else [WriteOf(staged[0].0, staged[0].1)] + Writes(staged[1..])
  }

  /** Every staged entry goes to a wallet outside `changed`, under its owner's key. */
  lemma {:induction false} StagedEntriesAreFresh(l: Ledger, changed: set<string>, now: Ledger, moves: seq<Move>)
    requires Ahead(l, changed, now) && Indexed(now) && StageAll(l, changed, moves).Success?
    ensures var staged := StageAll(l, changed, moves).value.0;
            && Undoable(now, Writes(staged)) && Runs(now, Writes(staged))
            && Outcome(now, Writes(staged)) == WriteAll(now, staged)
    decreases |moves|
  {
    if moves != [] {
      var m := moves[0];
      if m.Key() in l.applied {
        StagedEntriesAreFresh(l, changed, now, moves[1..]);
      } else {
        var one := Stage(l, changed, m).value;
        var next := LedgerModel.Write(now, one.entry, one.wallet);
        assert m.Key() !in now.applied;
        WriteIsReversible(now, one.entry, one.wallet);
        StagedEntriesAreFresh(l, changed + {m.user}, next, moves[1..]);
        var staged := StageAll(l, changed, moves).value.0;
        var rest := StageAll(l, changed + {m.user}, moves[1..]).value.0;
        assert staged[0] == (one.entry, one.wallet) && staged[1..] == rest;
        assert Writes(staged)[1..] == Writes(rest);
      }
    }
  }

  /** Committing an accepted batch gives the serial ledger. */
  lemma BatchCommitsSerially(l: Ledger, moves: seq<Move>)
    requires Core(l) && StageAll(l, {}, moves).Success?
    ensures SerialAll(l, moves).Success?
    ensures Committed(l, Writes(StageAll(l, {}, moves).value.0), []) == (SerialAll(l, moves).value.0, true)
  {
    CoreIsIndexed(l);
    StagedRefinesSerial(l, moves);
    StagedEntriesAreFresh(l, {}, l, moves);
    AllOrNothing(l, Writes(StageAll(l, {}, moves).value.0));
  }

  lemma {:induction false} UndoablePrefix<S(!new)>(s: S, writes: seq<Transactions.Write<S>>, at: nat,
                                                   raising: Transactions.Write<S>)
    requires at <= |writes| && Undoable(s, writes) && forall t :: raising(t).Raises?
    ensures Undoable(s, writes[..at] + [raising] + writes[at..])
    ensures !Runs(s, writes[..at] + [raising] + writes[at..])
  {
    var all := writes[..at] + [raising] + writes[at..];
    if at > 0 {
      assert all[0] == writes[0];
      assert all[1..] == writes[1..][..at - 1] + [raising] + writes[1..][at - 1..];
      if writes[0](s).Applied? {
        UndoablePrefix(writes[0](s).state, writes[1..], at - 1, raising);
      }
    }
  }

  /** A commit in which any other write raises - before, between or after the
      shard writes - leaves the ledger untouched in every part. */
  lemma FailedCommitLeavesNothing(l: Ledger, moves: seq<Move>, at: nat, raising: Transactions.Write<Ledger>)
    requires Core(l) && StageAll(l, {}, moves).Success?
    requires at <= |StageAll(l, {}, moves).value.0| && forall t :: raising(t).Raises?
    ensures var writes := Writes(StageAll(l, {}, moves).value.0);
            at <= |writes| && Committed(l, writes[..at] + [raising] + writes[at..], []) == (l, false)
  {
    CoreIsIndexed(l);
    StagedEntriesAreFresh(l, {}, l, moves);
    var writes := Writes(StageAll(l, {}, moves).value.0);
    WritesKeepCount(StageAll(l, {}, moves).value.0);
    UndoablePrefix(l, writes, at, raising);
    AllOrNothing(l, writes[..at] + [raising] + writes[at..]);
  }

  lemma {:induction false} WritesKeepCount(staged: seq<(Entry, Wallet)>)
    ensures |Writes(staged)| == |staged|
  {
    if staged != [] {
      WritesKeepCount(staged[1..]);
    }
  }

  /** Why the context claims wallets: two movements of one wallet staged against
      the same committed balance would overwrite each other. The claim refuses
      the second; without it the first movement would be lost. */
  lemma ClaimPreventsLostUpdate(l: Ledger, first: Move, second: Move)
    requires first.user == second.user && first.Key() != second.Key()
    requires first.Key() !in l.applied && second.Key() !in l.applied
    requires first.delta > 0 && second.delta > 0 && WalletOf(l, first.user).balance >= 0
    ensures Stage(l, {first.user}, second) == Failure(WalletAlreadyChanged)
    ensures var a, b := Stage(l, {}, first), Stage(l, {}, second);
            && a.Success? && a.value.Fresh? && b.Success? && b.value.Fresh?
            && var unclaimed := WriteAll(l, [(a.value.entry, a.value.wallet), (b.value.entry, b.value.wallet)]);
               var serial := SerialAll(l, [first, second]);
               serial.Success? &&
               WalletOf(serial.value.0, first.user).balance == WalletOf(unclaimed, first.user).balance + first.delta
  {
    var a, b := Stage(l, {}, first).value, Stage(l, {}, second).value;
    var writes := [(a.entry, a.wallet), (b.entry, b.wallet)];
    assert writes[1..] == [(b.entry, b.wallet)];
    var one := LedgerModel.Write(l, a.entry, a.wallet);
    assert WriteAll(l, writes) == WriteAll(one, writes[1..]);
    assert WriteAll(one, writes[1..]) == LedgerModel.Write(one, b.entry, b.wallet);
    var (next, r) := ApplyKeyed(l, first.user, first.delta, first.reason, first.event);
    assert next == one;
    assert [first, second][1..] == [second];
    var (last, r2) := ApplyKeyed(one, second.user, second.delta, second.reason, second.event);
    assert SerialAll(one, [second]).Success? && SerialAll(one, [second]).value.0 == last;
    assert SerialAll(l, [first, second]).value.0 == last;
  }
}
