/** The invariant that ties the wallets to the ledger, and the one lemma by
    which every operation keeps it: appending an entry with a fresh key. */
module LedgerInvariant {
  import opened Wrappers
  import opened LedgerModel

  /** A user's wallet recomputed from the ledger alone. */
  function Project(es: seq<Entry>, user: string): Wallet {
    if es == [] then EMPTY_WALLET
    else
      var before := Project(es[..|es| - 1], user);
      var e := es[|es| - 1];
      if e.user == user then Posted(before, e.delta, e.reason) else before
  }

  /** Sum of one user's deltas. */
  function SumOf(es: seq<Entry>, user: string): int {
    if es == [] then 0
    else SumOf(es[..|es| - 1], user) + if es[|es| - 1].user == user then es[|es| - 1].delta else 0
  }

  /** No two entries carry the same key. */
  ghost predicate KeysUnique(es: seq<Entry>) {
    forall i, j :: 0 <= i < j < |es| && es[i].key.Some? ==> es[i].key != es[j].key
  }

  /** An entry's key names the entry's own user and reason. */
  ghost predicate KeysScoped(es: seq<Entry>) {
    forall i :: 0 <= i < |es| && es[i].key.Some? ==>
      es[i].key.value.user == es[i].user && es[i].key.value.reason == es[i].reason
  }

  /** The key index and the ledger name exactly the same entries. */
  ghost predicate IndexAgrees(l: Ledger) {
    && (forall k :: k in l.applied ==> l.applied[k] in l.entries && l.applied[k].key == Some(k))
    && (forall i :: 0 <= i < |l.entries| && l.entries[i].key.Some? ==>
         l.entries[i].key.value in l.applied && l.applied[l.entries[i].key.value] == l.entries[i])
  }

  /** Each entry's `balance_after` is its owner's balance over the prefix that
      ends with it, and is never negative. */
  ghost predicate RunningBalances(es: seq<Entry>) {
    forall i :: 0 <= i < |es| ==>
      es[i].balanceAfter == Project(es[..i + 1], es[i].user).balance && es[i].balanceAfter >= 0
  }

  /** Wallets are projections of the ledger, and no balance is negative. */
  ghost predicate WalletsProject(l: Ledger) {
    forall u: string :: WalletOf(l, u) == Project(l.entries, u) && WalletOf(l, u).balance >= 0
  }

  ghost predicate Core(l: Ledger) {
    && KeysUnique(l.entries)
    && KeysScoped(l.entries)
    && IndexAgrees(l)
    && RunningBalances(l.entries)
    && WalletsProject(l)
  }

  lemma ProjectAppend(es: seq<Entry>, e: Entry, user: string)
    ensures Project(es + [e], user)
         == if e.user == user then Posted(Project(es, user), e.delta, e.reason) else Project(es, user)
  {
    assert (es + [e])[..|es|] == es;
  }

  lemma SumOfAppend(es: seq<Entry>, e: Entry, user: string)
    ensures SumOf(es + [e], user) == SumOf(es, user) + if e.user == user then e.delta else 0
  {
    assert (es + [e])[..|es|] == es;
  }

  /** An entry that may be appended: fresh scoped key, balance computed from the
      owner's wallet and not negative. */
  ghost predicate Appendable(l: Ledger, e: Entry, w: Wallet) {
    && (e.key.Some? ==> e.key.value !in l.applied && e.key.value.user == e.user && e.key.value.reason == e.reason)
    && w == Posted(WalletOf(l, e.user), e.delta, e.reason)
    && e.balanceAfter == w.balance >= 0
  }

  lemma AppendKeepsKeys(es: seq<Entry>, e: Entry)
    requires KeysUnique(es) && KeysScoped(es)
    requires e.key.Some? ==> e.key.value.user == e.user && e.key.value.reason == e.reason
    requires e.key.Some? ==> forall i :: 0 <= i < |es| ==> es[i].key != e.key
    ensures KeysUnique(es + [e]) && KeysScoped(es + [e])
  {
  }

  lemma WriteKeepsIndex(l: Ledger, e: Entry, w: Wallet)
    requires IndexAgrees(l) && (e.key.Some? ==> e.key.value !in l.applied)
    ensures IndexAgrees(Write(l, e, w))
  {
    var m := Write(l, e, w);
    forall k | k in m.applied ensures m.applied[k] in m.entries && m.applied[k].key == Some(k) {
      if e.key == Some(k) {
        assert m.entries[|l.entries|] == e;
      } else {
        assert l.applied[k] in l.entries;
      }
    }
    forall i | 0 <= i < |m.entries| && m.entries[i].key.Some?
      ensures m.entries[i].key.value in m.applied && m.applied[m.entries[i].key.value] == m.entries[i]
    {
      if i < |l.entries| {
        assert m.entries[i] == l.entries[i];
      }
    }
  }

  lemma AppendKeepsBalances(es: seq<Entry>, e: Entry)
    requires RunningBalances(es) && e.balanceAfter == Posted(Project(es, e.user), e.delta, e.reason).balance >= 0
    ensures RunningBalances(es + [e])
  {
    var all := es + [e];
    forall i | 0 <= i < |all|
      ensures all[i].balanceAfter == Project(all[..i + 1], all[i].user).balance && all[i].balanceAfter >= 0
    {
      if i < |es| {
        assert all[..i + 1] == es[..i + 1] && all[i] == es[i];
      } else {
        assert all[..i + 1] == es + [e];
        ProjectAppend(es, e, e.user);
      }
    }
  }

  lemma WriteKeepsWallets(l: Ledger, e: Entry, w: Wallet)
    requires WalletsProject(l) && w == Posted(WalletOf(l, e.user), e.delta, e.reason) && w.balance >= 0
    ensures WalletsProject(Write(l, e, w))
  {
    var m := Write(l, e, w);
    forall u: string ensures WalletOf(m, u) == Project(m.entries, u) && WalletOf(m, u).balance >= 0 {
      ProjectAppend(l.entries, e, u);
      assert WalletOf(l, u) == Project(l.entries, u);
    }
  }

  lemma WriteKeepsCore(l: Ledger, e: Entry, w: Wallet)
    requires Core(l) && Appendable(l, e, w)
    ensures Core(Write(l, e, w))
  {
    assert WalletOf(l, e.user) == Project(l.entries, e.user);
    AppendKeepsKeys(l.entries, e);
    WriteKeepsIndex(l, e, w);
    AppendKeepsBalances(l.entries, e);
    WriteKeepsWallets(l, e, w);
  }

  /** Quotas and claims play no part in the invariant. */
  lemma CoreIgnoresSides(l: Ledger, m: Ledger)
    requires Core(l)
    requires m.wallets == l.wallets && m.entries == l.entries && m.applied == l.applied
    ensures Core(m)
  {
    forall u: string ensures WalletOf(m, u) == Project(m.entries, u) && WalletOf(m, u).balance >= 0 {
      assert WalletOf(m, u) == WalletOf(l, u);
    }
  }

  lemma ApplyKeepsCore(l: Ledger, user: string, delta: int, reason: ShardReason, key: Option<Key>,
                       quota: Option<PeriodQuota>, claim: Option<ExclusiveClaim>)
    requires Core(l)
    requires !reason.IapRefund? && !reason.IapRefundReversed?
    requires key.Some? ==> key.value.user == user && key.value.reason == reason
    ensures Core(Apply(l, user, delta, reason, key, quota, claim).0)
  {
    var (after, r) := Apply(l, user, delta, reason, key, quota, claim);
    if r.Success? && r.value.applied {
      WriteKeepsCore(l, r.value.entry, r.value.wallet);
      CoreIgnoresSides(Write(l, r.value.entry, r.value.wallet), after);
    }
  }

  // What the invariant says to someone who audits a wallet.

  /** The accounting identity of a projected wallet. */
  lemma {:induction false} ProjectBalances(es: seq<Entry>, user: string)
    ensures var w := Project(es, user);
            w.balance == SumOf(es, user) == w.earned - w.spent - w.refunded + w.reversed
  {
    if es != [] {
      ProjectBalances(es[..|es| - 1], user);
    }
  }

  /** Occurrences of a key in the ledger. */
  function Occurrences(es: seq<Entry>, key: Key): nat {
    if es == [] then 0
    else Occurrences(es[..|es| - 1], key) + if es[|es| - 1].key == Some(key) then 1 else 0
  }

  lemma {:induction false} NoOccurrence(es: seq<Entry>, key: Key)
    requires forall i :: 0 <= i < |es| ==> es[i].key != Some(key)
    ensures Occurrences(es, key) == 0
  {
    if es != [] {
      NoOccurrence(es[..|es| - 1], key);
    }
  }

  lemma {:induction false} OneOccurrence(es: seq<Entry>, key: Key, at: nat)
    requires KeysUnique(es) && at < |es| && es[at].key == Some(key)
    ensures Occurrences(es, key) == 1
  {
    var front := es[..|es| - 1];
    if at == |es| - 1 {
      NoOccurrence(front, key);
    } else {
      assert front[at] == es[at];
      OneOccurrence(front, key, at);
    }
  }

  /** An applied key labels exactly one ledger entry; any other key none. */
  lemma KeyLabelsOneEntry(l: Ledger, key: Key)
    requires Core(l)
    ensures Occurrences(l.entries, key) == if key in l.applied then 1 else 0
  {
    if key in l.applied {
      var at :| 0 <= at < |l.entries| && l.entries[at] == l.applied[key];
      OneOccurrence(l.entries, key, at);
    } else {
      NoOccurrence(l.entries, key);
    }
  }

  /** What the entries under one key moved in all. */
  function MovedUnder(es: seq<Entry>, key: Key): int {
    if es == [] then 0
    else MovedUnder(es[..|es| - 1], key) + if es[|es| - 1].key == Some(key) then es[|es| - 1].delta else 0
  }

  lemma {:induction false} NothingMovedUnder(es: seq<Entry>, key: Key)
    requires Occurrences(es, key) == 0
    ensures MovedUnder(es, key) == 0
  {
    if es != [] {
      NothingMovedUnder(es[..|es| - 1], key);
    }
  }

  lemma {:induction false} OneMovedUnder(es: seq<Entry>, key: Key, at: nat)
    requires at < |es| && es[at].key == Some(key) && Occurrences(es, key) == 1
    ensures MovedUnder(es, key) == es[at].delta
  {
    var front := es[..|es| - 1];
    if at == |es| - 1 {
      NothingMovedUnder(front, key);
    } else {
      assert front[at] == es[at];
      if es[|es| - 1].key == Some(key) {
        OccursWhere(front, key, at);
      }
      OneMovedUnder(front, key, at);
    }
  }

  lemma {:induction false} OccursWhere(es: seq<Entry>, key: Key, at: nat)
    requires at < |es| && es[at].key == Some(key)
    ensures Occurrences(es, key) >= 1
  {
    var front := es[..|es| - 1];
    if at < |es| - 1 {
      assert front[at] == es[at];
      OccursWhere(front, key, at);
    }
  }

  /** The ledger moved exactly the applied entry's delta under a key, once. */
  lemma MovedUnderKey(l: Ledger, key: Key)
    requires Core(l)
    ensures MovedUnder(l.entries, key) == if key in l.applied then l.applied[key].delta else 0
  {
    KeyLabelsOneEntry(l, key);
    if key in l.applied {
      var at :| 0 <= at < |l.entries| && l.entries[at] == l.applied[key];
      OneMovedUnder(l.entries, key, at);
    } else {
      NothingMovedUnder(l.entries, key);
    }
  }
}
