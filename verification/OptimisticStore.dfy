/** The optimistic `apply` of app/shards/firestore_store.py. Every attempt reads a
    snapshot; its commit fails when a document it read has changed or when a
    document it creates already exists. Any number of calls interleave. */
module OptimisticStore {
  import opened Wrappers
  import opened LedgerModel
  import opened LedgerInvariant

  datatype Call = Call(user: string, delta: int, reason: ShardReason, key: Option<Key>,
                       quota: Option<PeriodQuota>, claim: Option<ExclusiveClaim>)

  /** The in-memory `apply` on one call: the reference. */
  function Serial(l: Ledger, c: Call): (Ledger, Result<Mutation, ShardError>) {
    Apply(l, c.user, c.delta, c.reason, c.key, c.quota, c.claim)
  }

  /** A call that would write. */
  predicate Writes(l: Ledger, c: Call) {
    var r := Serial(l, c).1;
    r.Success? && r.value.applied
  }

  /** The documents of the attempt are as they were when it read them. */
  predicate Clean(snap: Ledger, now: Ledger, c: Call) {
    && (c.claim.Some? ==> (c.claim.value.slot in snap.claims <==> c.claim.value.slot in now.claims))
    && (c.claim.Some? && c.claim.value.slot in snap.claims ==>
          snap.claims[c.claim.value.slot] == now.claims[c.claim.value.slot])
    && (c.key.Some? ==> (c.key.value in snap.applied <==> c.key.value in now.applied))
    && (c.quota.Some? ==> Used(snap, c.quota.value.key) == Used(now, c.quota.value.key))
    && WalletOf(snap, c.user) == WalletOf(now, c.user)
  }

  /** A document the attempt creates is already there. */
  predicate Taken(now: Ledger, c: Call) {
    (c.key.Some? && c.key.value in now.applied) || (c.claim.Some? && c.claim.value.slot in now.claims)
  }

  /** What a successful commit makes of `now`: every document is computed from the
      snapshot, and only the documents of the call are written. */
  function Flushed(snap: Ledger, now: Ledger, c: Call): Ledger {
    var wallet := Moved(WalletOf(snap, c.user), c.delta);
    var entry := Entry(c.user, c.delta, wallet.balance, c.reason, c.key);
    now.(entries := now.entries + [entry],
         applied := if c.key.Some? then now.applied[c.key.value := entry] else now.applied,
         wallets := now.wallets[c.user := wallet],
         claims := if c.claim.Some?
                   then now.claims[c.claim.value.slot := c.claim.value.document.(user := c.user)]
                   else now.claims,
         quotas := if c.quota.Some?
                   then now.quotas[c.quota.value.key := Used(snap, c.quota.value.key) + 1]
                   else now.quotas)
  }

  /** What the caller is told, computed from the snapshot. */
  function Told(snap: Ledger, c: Call): Result<Mutation, ShardError> { Serial(snap, c).1 }

  /** `Ready`: about to (re)run. `Waiting`: read at `snap`, about to commit.
      `Answered`: done; `at` is the state the answer is about. `Unavailable`: the
      store gave up, `stuck` after a second "already exists". */
  datatype Phase =
    | Ready(rerun: bool)
    | Waiting(snap: nat, rerun: bool)
    | Answered(at: nat, result: Result<Mutation, ShardError>)
    | Unavailable(stuck: bool)

  /** `since` is the state in which the call arrived. */
  datatype Thread = Thread(call: Call, since: nat, phase: Phase)

  datatype Author = ByThread(id: int) | ByOther

  /** All committed states, who committed each, and every call so far. */
  datatype Server = Server(history: seq<Ledger>, authors: seq<Author>, threads: map<int, Thread>)

  function Now(s: Server): Ledger
    requires |s.history| > 0
  {
    s.history[|s.history| - 1]
  }

  /** Reasons whose entries only `apply` writes. */
  predicate ApplyReason(r: ShardReason) {
    r.DailyAttendance? || r.RewardedAd? || r.IapPurchase? || r.AiSticker? || r.AiMirror? || r.Refund?
    || r.MirrorCapacityPurchase? || r.CatalogTemplatePurchase? || r.AdminAdjustment?
  }

  predicate ValidCall(c: Call) {
    && ApplyReason(c.reason)
    && (c.key.Some? ==> c.key.value.user == c.user && c.key.value.reason == c.reason)
  }

  /** Every other kind of commit: documents that only ever get created stay. */
  ghost predicate OtherCommit(l: Ledger, m: Ledger) {
    && Core(m)
    && (forall k :: k in l.applied ==> k in m.applied && m.applied[k] == l.applied[k])
    && (forall k :: k in m.applied && k !in l.applied ==> !ApplyReason(k.reason))
    && (forall d :: d in l.claims ==> d in m.claims && m.claims[d].user == l.claims[d].user)
    && (forall d :: d in m.claims && d !in l.claims ==> d.collection.Refunds?)
  }

  function Put(s: Server, i: int, phase: Phase): Server
    requires i in s.threads
  {
    s.(threads := s.threads[i := s.threads[i].(phase := phase)])
  }

  ghost predicate Arrives(s: Server, t: Server, i: int, c: Call) {
    && |s.history| > 0 && i !in s.threads && ValidCall(c)
    && t == s.(threads := s.threads[i := Thread(c, |s.history| - 1, Ready(false))])
  }

  /** Run the callable: an answer that writes nothing ends the call. */
  ghost predicate Begins(s: Server, t: Server, i: int) {
    && |s.history| > 0 && i in s.threads && s.threads[i].phase.Ready?
    && var c, at := s.threads[i].call, |s.history| - 1;
       t == Put(s, i, if Writes(Now(s), c) then Waiting(at, s.threads[i].phase.rerun)
                      else Answered(at, Serial(Now(s), c).1))
  }

  ghost predicate Commits(s: Server, t: Server, i: int) {
    && |s.history| > 0 && i in s.threads && s.threads[i].phase.Waiting? && s.threads[i].phase.snap < |s.history|
    && var c, snap := s.threads[i].call, s.history[s.threads[i].phase.snap];
       && Clean(snap, Now(s), c) && !Taken(Now(s), c)
       && t == Put(s, i, Answered(|s.history| - 1, Told(snap, c)))
               .(history := s.history + [Flushed(snap, Now(s), c)], authors := s.authors + [ByThread(i)])
  }

  /** The commit is aborted; the library runs the callable again or gives up. */
  ghost predicate Aborts(s: Server, t: Server, i: int) {
    && i in s.threads && s.threads[i].phase.Waiting?
    && (t == Put(s, i, Ready(s.threads[i].phase.rerun)) || t == Put(s, i, Unavailable(false)))
  }

  /** A created document exists: one rerun is granted. */
  ghost predicate Collides(s: Server, t: Server, i: int) {
    && |s.history| > 0 && i in s.threads && s.threads[i].phase.Waiting? && Taken(Now(s), s.threads[i].call)
    && t == Put(s, i, if s.threads[i].phase.rerun then Unavailable(true) else Ready(true))
  }

  ghost predicate Others(s: Server, t: Server) {
    && |s.history| > 0 && |t.history| == |s.history| + 1
    && OtherCommit(Now(s), Now(t))
    && t == s.(history := s.history + [Now(t)], authors := s.authors + [ByOther])
  }

  ghost predicate ThreadActs(s: Server, t: Server, i: int) {
    Begins(s, t, i) || Commits(s, t, i) || Aborts(s, t, i) || Collides(s, t, i)
  }

  ghost predicate Next(s: Server, t: Server) {
    || (exists i, c :: Arrives(s, t, i, c))
    || (exists i :: ThreadActs(s, t, i))
    || Others(s, t)
  }

  ghost predicate Init(s: Server) {
    |s.history| == 1 && Core(s.history[0]) && s.authors == [] && s.threads == map[]
  }

  // The heart: a commit that is allowed writes what `apply` would write now.

  lemma CommitIsSerial(snap: Ledger, now: Ledger, c: Call)
    requires Writes(snap, c) && Clean(snap, now, c) && !Taken(now, c)
    ensures Flushed(snap, now, c) == Serial(now, c).0 && Told(snap, c) == Serial(now, c).1 && Writes(now, c)
  {
  }

  // What every run keeps.

  /** Keys and claim owners are never lost. */
  ghost predicate Grows(l: Ledger, m: Ledger) {
    && (forall k :: k in l.applied ==> k in m.applied)
    && (forall d :: d in l.claims ==> d in m.claims && m.claims[d].user == l.claims[d].user)
  }

  ghost predicate GrowsAt(h: seq<Ledger>, m: nat, n: nat)
    requires m <= n < |h|
  {
    Grows(h[m], h[n])
  }

  ghost predicate CoreAt(h: seq<Ledger>, n: nat)
    requires n < |h|
  {
    Core(h[n])
  }

  ghost predicate HistoryOk(s: Server) {
    && |s.history| > 0 && |s.authors| == |s.history| - 1
    && (forall n :: 0 <= n < |s.history| ==> CoreAt(s.history, n))
    && (forall m, n :: 0 <= m <= n < |s.history| ==> GrowsAt(s.history, m, n))
  }

  /** Each committed state is the serial outcome of its author's call, or another
      operation's. */
  ghost predicate CommitOk(s: Server, n: nat)
    requires n < |s.authors| && |s.authors| == |s.history| - 1
  {
    match s.authors[n]
    case ByOther => OtherCommit(s.history[n], s.history[n + 1])
    case ByThread(i) =>
      && i in s.threads && s.threads[i].phase.Answered? && s.threads[i].phase.at == n
      && Writes(s.history[n], s.threads[i].call)
      && s.history[n + 1] == Serial(s.history[n], s.threads[i].call).0
  }

  /** An answer is the serial answer in a state between arrival and now, and a
      call that says it wrote is the author of the next state. */
  ghost predicate ThreadOk(s: Server, i: int)
    requires i in s.threads && |s.history| > 0 && |s.authors| == |s.history| - 1
  {
    var x := s.threads[i];
    && ValidCall(x.call) && x.since < |s.history|
    && match x.phase
       case Ready(rerun) => rerun ==> Taken(Now(s), x.call)
       case Waiting(snap, rerun) =>
         && x.since <= snap < |s.history| && Writes(s.history[snap], x.call)
         && (rerun ==> Taken(s.history[snap], x.call))
       case Answered(at, result) =>
         && x.since <= at < |s.history| && result == Serial(s.history[at], x.call).1
         && (Writes(s.history[at], x.call) ==> at < |s.authors| && s.authors[at] == ByThread(i))
       case Unavailable(_) => true
  }

  ghost predicate Inv(s: Server) {
    && HistoryOk(s)
    && (forall n :: 0 <= n < |s.authors| ==> CommitOk(s, n))
    && (forall i :: i in s.threads ==> ThreadOk(s, i))
  }

  lemma InitInv(s: Server)
    requires Init(s)
    ensures Inv(s)
  {
    assert CoreAt(s.history, 0) && GrowsAt(s.history, 0, 0);
  }

  lemma TakenStays(l: Ledger, m: Ledger, c: Call)
    requires Taken(l, c) && Grows(l, m)
    ensures Taken(m, c)
  {
  }

  lemma SerialGrows(l: Ledger, c: Call)
    requires Writes(l, c)
    ensures Grows(l, Serial(l, c).0)
  {
  }

  lemma GrowsOn(l: Ledger, m: Ledger, n: Ledger)
    requires Grows(l, m) && Grows(m, n)
    ensures Grows(l, n)
  {
  }

  /** Appending a grown state keeps the history in order. */
  lemma HistoryAppends(s: Server, t: Server)
    requires HistoryOk(s) && |t.history| == |s.history| + 1 && t.history[..|s.history|] == s.history
    requires |t.authors| == |s.authors| + 1
    requires CoreAt(t.history, |t.history| - 1) && Grows(Now(s), Now(t))
    ensures HistoryOk(t)
  {
    forall n | 0 <= n < |t.history| ensures CoreAt(t.history, n) {
      if n < |s.history| { CoreMoves(s.history, t.history, n); }
    }
    GrowthAppends(s.history, t.history);
  }

  lemma GrowthAppends(h: seq<Ledger>, g: seq<Ledger>)
    requires |h| > 0 && |g| == |h| + 1 && g[..|h|] == h && Grows(h[|h| - 1], g[|h|])
    requires forall m, n :: 0 <= m <= n < |h| ==> GrowsAt(h, m, n)
    ensures forall m, n :: 0 <= m <= n < |g| ==> GrowsAt(g, m, n)
  {
    forall m, n | 0 <= m <= n < |g| ensures GrowsAt(g, m, n) {
      if n < |h| {
        assert GrowsAt(h, m, n);
        GrowthMoves(h, g, m, n);
      } else if m < |h| {
        assert GrowsAt(h, m, |h| - 1);
        GrowsOn(h[m], h[|h| - 1], g[|h|]);
      }
    }
  }

  lemma CoreMoves(h: seq<Ledger>, g: seq<Ledger>, n: nat)
    requires n < |h| && n < |g| && h[n] == g[n] && CoreAt(h, n)
    ensures CoreAt(g, n)
  {
  }

  lemma GrowthMoves(h: seq<Ledger>, g: seq<Ledger>, m: nat, n: nat)
    requires m <= n < |h| && n < |g| && h[m] == g[m] && h[n] == g[n] && GrowsAt(h, m, n)
    ensures GrowsAt(g, m, n)
  {
  }

  /** A step that only changes one thread's phase, to one that is in order. */
  lemma PhaseKeepsInv(s: Server, t: Server, i: int)
    requires Inv(s) && i in s.threads && !s.threads[i].phase.Answered?
    requires i in t.threads && t == Put(s, i, t.threads[i].phase) && ThreadOk(t, i)
    ensures Inv(t)
  {
    forall n | 0 <= n < |t.authors| ensures CommitOk(t, n) {
      assert CommitOk(s, n);
    }
    forall j | j in t.threads ensures ThreadOk(t, j) {
      if j != i { assert ThreadOk(s, j); }
    }
  }

  lemma ArriveKeepsInv(s: Server, t: Server, i: int, c: Call)
    requires Inv(s) && Arrives(s, t, i, c)
    ensures Inv(t)
  {
    forall n | 0 <= n < |t.authors| ensures CommitOk(t, n) {
      assert CommitOk(s, n);
    }
    forall j | j in t.threads ensures ThreadOk(t, j) {
      if j != i { assert ThreadOk(s, j); }
    }
  }

  lemma CommitKeepsInv(s: Server, t: Server, i: int)
    requires Inv(s) && Commits(s, t, i)
    ensures Inv(t)
  {
    var c, snap := s.threads[i].call, s.history[s.threads[i].phase.snap];
    assert ThreadOk(s, i);
    CommitIsSerial(snap, Now(s), c);
    SerialGrows(Now(s), c);
    assert CoreAt(s.history, |s.history| - 1);
    ApplyKeepsCore(Now(s), c.user, c.delta, c.reason, c.key, c.quota, c.claim);
    HistoryAppends(s, t);
    forall n | 0 <= n < |t.authors| ensures CommitOk(t, n) {
      if n < |s.authors| { assert CommitOk(s, n); }
    }
    AppendKeepsThreads(s, t, i);
  }

  lemma AppendKeepsThreads(s: Server, t: Server, i: int)
    requires Inv(s) && |t.history| == |s.history| + 1 && t.history[..|s.history|] == s.history
    requires |t.authors| == |s.authors| + 1 && t.authors[..|s.authors|] == s.authors
    requires Grows(Now(s), Now(t))
    requires t.threads.Keys == s.threads.Keys && forall j :: j in s.threads && j != i ==> t.threads[j] == s.threads[j]
    requires i in t.threads ==> ThreadOk(t, i)
    ensures forall j :: j in t.threads ==> ThreadOk(t, j)
  {
    forall j | j in t.threads ensures ThreadOk(t, j) {
      if j != i {
        assert ThreadOk(s, j);
        if Taken(Now(s), s.threads[j].call) {
          TakenStays(Now(s), Now(t), s.threads[j].call);
        }
      }
    }
  }

  lemma OthersKeepInv(s: Server, t: Server)
    requires Inv(s) && Others(s, t)
    ensures Inv(t)
  {
    HistoryAppends(s, t);
    forall n | 0 <= n < |t.authors| ensures CommitOk(t, n) {
      if n < |s.authors| { assert CommitOk(s, n); }
    }
    forall j | j in t.threads ensures ThreadOk(t, j) {
      assert ThreadOk(s, j);
      if Taken(Now(s), s.threads[j].call) {
        TakenStays(Now(s), Now(t), s.threads[j].call);
      }
    }
  }

  lemma ActsKeepInv(s: Server, t: Server, i: int)
    requires Inv(s) && ThreadActs(s, t, i)
    ensures Inv(t)
  {
    assert ThreadOk(s, i);
    if Commits(s, t, i) {
      CommitKeepsInv(s, t, i);
    } else {
      if Aborts(s, t, i) && s.threads[i].phase.rerun {
        var c := s.threads[i].call;
        assert GrowsAt(s.history, s.threads[i].phase.snap, |s.history| - 1);
        TakenStays(s.history[s.threads[i].phase.snap], Now(s), c);
      }
      PhaseKeepsInv(s, t, i);
    }
  }

  lemma NextKeepsInv(s: Server, t: Server)
    requires Inv(s) && Next(s, t)
    ensures Inv(t)
  {
    if i, c :| Arrives(s, t, i, c) {
      ArriveKeepsInv(s, t, i, c);
    } else if i :| ThreadActs(s, t, i) {
      ActsKeepInv(s, t, i);
    } else {
      OthersKeepInv(s, t);
    }
  }

  ghost predicate StepAt(ss: seq<Server>, n: int)
    requires 0 <= n < |ss| - 1
  {
    Next(ss[n], ss[n + 1])
  }

  ghost predicate Behaviour(ss: seq<Server>) {
    |ss| > 0 && Init(ss[0]) && forall n :: 0 <= n < |ss| - 1 ==> StepAt(ss, n)
  }

  lemma {:induction false} RunKeepsInv(ss: seq<Server>, n: nat)
    requires Behaviour(ss) && n < |ss|
    ensures Inv(ss[n])
    decreases n
  {
    if n == 0 {
      InitInv(ss[0]);
    } else {
      RunKeepsInv(ss, n - 1);
      assert StepAt(ss, n - 1);
      NextKeepsInv(ss[n - 1], ss[n]);
    }
  }

  // What a caller can rely on.

  /** Every answer is the answer of the in-memory `apply` in some state between the
      arrival of the call and now, and the ledger invariant holds throughout. */
  lemma AnswersAreLinearizable(ss: seq<Server>, n: nat, i: int)
    requires Behaviour(ss) && n < |ss| && i in ss[n].threads && ss[n].threads[i].phase.Answered?
    ensures var s, x := ss[n], ss[n].threads[i];
            && x.since <= x.phase.at < |s.history|
            && x.phase.result == Serial(s.history[x.phase.at], x.call).1
            && Core(s.history[x.phase.at])
            && (Writes(s.history[x.phase.at], x.call) ==>
                  x.phase.at + 1 < |s.history| && s.history[x.phase.at + 1] == Serial(s.history[x.phase.at], x.call).0)
  {
    RunKeepsInv(ss, n);
    var s, x := ss[n], ss[n].threads[i];
    assert ThreadOk(s, i) && CoreAt(s.history, x.phase.at);
    if Writes(s.history[x.phase.at], x.call) {
      assert CommitOk(s, x.phase.at);
    }
  }

  function Replayed(l: Ledger, calls: seq<Call>): Ledger {
    if calls == [] then l else Serial(Replayed(l, calls[..|calls| - 1]), calls[|calls| - 1]).0
  }

  predicate OnlyThreads(s: Server) { forall a :: a in s.authors ==> a.ByThread? }

  /** The calls in the order in which they committed. */
  function Committed(s: Server, n: nat): seq<Call>
    requires n <= |s.authors| && OnlyThreads(s) && forall i :: ByThread(i) in s.authors ==> i in s.threads
  {
    if n == 0 then [] else Committed(s, n - 1) + [s.threads[s.authors[n - 1].id].call]
  }

  lemma AuthorsAreThreads(s: Server)
    requires Inv(s)
    ensures forall i :: ByThread(i) in s.authors ==> i in s.threads
  {
    forall i | ByThread(i) in s.authors ensures i in s.threads {
      var n :| 0 <= n < |s.authors| && s.authors[n] == ByThread(i);
      assert CommitOk(s, n);
    }
  }

  /** However attempts interleave, abort and collide, the ledger is what the calls
      that committed would have left behind one after the other. */
  lemma {:induction false} CommitsSerialize(s: Server, n: nat)
    requires Inv(s) && OnlyThreads(s) && n < |s.history|
    requires forall i :: ByThread(i) in s.authors ==> i in s.threads
    ensures Replayed(s.history[0], Committed(s, n)) == s.history[n]
    decreases n
  {
    if n > 0 {
      CommitsSerialize(s, n - 1);
      assert CommitOk(s, n - 1);
      var calls := Committed(s, n);
      assert calls[..|calls| - 1] == Committed(s, n - 1);
    }
  }

  /** So at every moment of a run without other writers the ledger is a replay. */
  lemma RunsSerialize(ss: seq<Server>, n: nat)
    requires Behaviour(ss) && n < |ss| && OnlyThreads(ss[n])
    ensures var s := ss[n];
            && |s.history| > 0 && |s.authors| == |s.history| - 1
            && (forall i :: ByThread(i) in s.authors ==> i in s.threads)
            && Now(s) == Replayed(s.history[0], Committed(s, |s.authors|))
  {
    RunKeepsInv(ss, n);
    AuthorsAreThreads(ss[n]);
    CommitsSerialize(ss[n], |ss[n].authors|);
  }

  /** This call said that it wrote the entry under `k`. */
  predicate Wrote(s: Server, i: int, k: Key) {
    && i in s.threads && s.threads[i].call.key == Some(k) && s.threads[i].phase.Answered?
    && s.threads[i].phase.result.Success? && s.threads[i].phase.result.value.applied
  }

  lemma WriterIsUnique(s: Server, k: Key, i: int, j: int)
    requires Inv(s) && Wrote(s, i, k) && Wrote(s, j, k)
    requires s.threads[i].phase.at <= s.threads[j].phase.at
    ensures i == j
  {
    assert ThreadOk(s, i) && ThreadOk(s, j);
    var a, b := s.threads[i].phase.at, s.threads[j].phase.at;
    assert CommitOk(s, a);
    assert k in s.history[a + 1].applied;
    assert a < b ==> GrowsAt(s.history, a + 1, b);
  }

  lemma {:induction false} WriterExists(s: Server, k: Key, n: nat) returns (i: int)
    requires Inv(s) && ApplyReason(k.reason) && n < |s.history|
    requires k !in s.history[0].applied && k in s.history[n].applied
    ensures Wrote(s, i, k)
    decreases n
  {
    if k in s.history[n - 1].applied {
      i := WriterExists(s, k, n - 1);
    } else {
      assert CommitOk(s, n - 1);
      i := s.authors[n - 1].id;
      assert ThreadOk(s, i);
    }
  }

  /** Of all calls with one key exactly one answers that it applied, once the key
      is in the ledger; none does while it is not. */
  lemma ExactlyOneApplies(ss: seq<Server>, n: nat, k: Key)
    requires Behaviour(ss) && n < |ss| && ApplyReason(k.reason)
    requires |ss[n].history| > 0 && k !in ss[n].history[0].applied
    ensures k in Now(ss[n]).applied <==> exists i :: Wrote(ss[n], i, k)
    ensures forall i, j :: Wrote(ss[n], i, k) && Wrote(ss[n], j, k) ==> i == j
  {
    RunKeepsInv(ss, n);
    var s := ss[n];
    if k in Now(s).applied {
      var i := WriterExists(s, k, |s.history| - 1);
    }
    if i :| Wrote(s, i, k) {
      WroteIsThere(s, i, k);
    }
    forall i, j | Wrote(s, i, k) && Wrote(s, j, k) ensures i == j {
      if s.threads[i].phase.at <= s.threads[j].phase.at {
        WriterIsUnique(s, k, i, j);
      } else {
        WriterIsUnique(s, k, j, i);
      }
    }
  }

  lemma WroteIsThere(s: Server, i: int, k: Key)
    requires Inv(s) && Wrote(s, i, k)
    ensures k in Now(s).applied
  {
    assert ThreadOk(s, i);
    var at := s.threads[i].phase.at;
    assert CommitOk(s, at);
    assert GrowsAt(s.history, at + 1, |s.history| - 1);
  }

  // When a commit goes through.

  /** The documents that a waiting attempt depends on: its wallet and its counter are
      as it read them, and those it creates are still missing. */
  predicate Undisturbed(snap: Ledger, now: Ledger, c: Call) {
    && WalletOf(now, c.user) == WalletOf(snap, c.user)
    && (c.quota.Some? ==> Used(now, c.quota.value.key) == Used(snap, c.quota.value.key))
    && (c.key.Some? ==> c.key.value !in now.applied)
    && (c.claim.Some? ==> c.claim.value.slot !in now.claims)
  }

  /** An attempt can commit if and only if nobody touched its documents; whatever else
      was committed meanwhile does not matter. */
  lemma CommitNeedsOnlyItsDocuments(s: Server, i: int)
    requires Inv(s) && i in s.threads && s.threads[i].phase.Waiting?
    ensures var x := s.threads[i];
            (exists t :: Commits(s, t, i)) <==> Undisturbed(s.history[x.phase.snap], Now(s), x.call)
  {
    var c, at := s.threads[i].call, s.threads[i].phase.snap;
    assert ThreadOk(s, i) && GrowsAt(s.history, at, |s.history| - 1);
    if Undisturbed(s.history[at], Now(s), c) {
      var t := Put(s, i, Answered(|s.history| - 1, Told(s.history[at], c)))
               .(history := s.history + [Flushed(s.history[at], Now(s), c)], authors := s.authors + [ByThread(i)]);
      assert Commits(s, t, i);
    }
  }

  /** A run of one call that nobody disturbs: it commits in its first attempt, and
      ledger and answer are those of the in-memory store. */
  lemma LoneCallIsServed(l: Ledger, c: Call) returns (ss: seq<Server>)
    requires Core(l) && ValidCall(c) && !(Writes(l, c) && Taken(l, c))
    ensures Behaviour(ss) && ss[0].history == [l]
    ensures var last := ss[|ss| - 1];
            && last.threads == map[0 := Thread(c, 0, Answered(0, Serial(l, c).1))]
            && last.history == if Writes(l, c) then [l, Serial(l, c).0] else [l]
  {
    var s, r := Server([l], [], map[]), Lone(l, c, Ready(false));
    assert Arrives(s, r, 0, c);
    assert Next(s, r);
    if Writes(l, c) {
      var w := Lone(l, c, Waiting(0, false));
      var d := Server([l, Serial(l, c).0], [ByThread(0)], map[0 := Thread(c, 0, Answered(0, Serial(l, c).1))]);
      CommitIsSerial(l, l, c);
      assert w == Put(r, 0, Waiting(0, false)) && Begins(r, w, 0) && ThreadActs(r, w, 0);
      assert d.history == w.history + [Flushed(l, l, c)] && d.authors == w.authors + [ByThread(0)];
      assert d.threads == Put(w, 0, Answered(0, Told(l, c))).threads;
      assert Commits(w, d, 0) && ThreadActs(w, d, 0);
      ss := [s, r, w, d];
      assert Next(ss[1], ss[2]) && Next(ss[2], ss[3]);
    } else {
      var d := Lone(l, c, Answered(0, Serial(l, c).1));
      assert d == Put(r, 0, Answered(0, Serial(l, c).1)) && Begins(r, d, 0) && ThreadActs(r, d, 0);
      ss := [s, r, d];
      assert Next(ss[1], ss[2]);
    }
    forall n | 0 <= n < |ss| - 1 ensures StepAt(ss, n) {
      assert Next(ss[0], ss[1]);
      assert n == 0 || n == 1 || n == 2;
    }
  }

  /** A server after one foreign commit, with one call. */
  function Overtaken(l: Ledger, m: Ledger, c: Call, phase: Phase): Server {
    Server([l, m], [ByOther], map[0 := Thread(c, 0, phase)])
  }

  lemma IsOvertaken(l: Ledger, m: Ledger, c: Call, phase: Phase)
    requires OtherCommit(l, m)
    ensures Others(Lone(l, c, phase), Overtaken(l, m, c, phase))
  {
    assert [l, m] == [l] + [m] && [ByOther] == [] + [ByOther];
  }

  lemma IsAborted(l: Ledger, m: Ledger, c: Call, snap: nat)
    ensures Aborts(Overtaken(l, m, c, Waiting(snap, false)), Overtaken(l, m, c, Ready(false)), 0)
  {
    assert Overtaken(l, m, c, Ready(false)) == Put(Overtaken(l, m, c, Waiting(snap, false)), 0, Ready(false));
  }

  /** Where a rerun on the new ledger leads. */
  function Rerun(m: Ledger, c: Call): Phase {
    if Writes(m, c) then Waiting(1, false) else Answered(1, Serial(m, c).1)
  }

  lemma IsRerun(l: Ledger, m: Ledger, c: Call)
    ensures Begins(Overtaken(l, m, c, Ready(false)), Overtaken(l, m, c, Rerun(m, c)), 0)
  {
    assert Overtaken(l, m, c, Rerun(m, c)) == Put(Overtaken(l, m, c, Ready(false)), 0, Rerun(m, c));
  }

  /** A call that is overtaken between its reads and its commit can be aborted, run
      again, and is then answered from the new ledger. */
  lemma OvertakenCallIsRerun(l: Ledger, m: Ledger, c: Call) returns (ss: seq<Server>)
    requires Core(l) && OtherCommit(l, m) && ValidCall(c) && Writes(l, c)
    ensures Behaviour(ss) && ss[0].history == [l]
    ensures ss[|ss| - 1] == Overtaken(l, m, c, Rerun(m, c))
  {
    var s, r, w := Server([l], [], map[]), Lone(l, c, Ready(false)), Lone(l, c, Waiting(0, false));
    assert Arrives(s, r, 0, c);
    assert w == Put(r, 0, Waiting(0, false)) && Begins(r, w, 0) && ThreadActs(r, w, 0);
    IsOvertaken(l, m, c, Waiting(0, false));
    IsAborted(l, m, c, 0);
    IsRerun(l, m, c);
    ss := [s, r, w, Overtaken(l, m, c, Waiting(0, false)), Overtaken(l, m, c, Ready(false)),
           Overtaken(l, m, c, Rerun(m, c))];
    assert ThreadActs(ss[3], ss[4], 0) && ThreadActs(ss[4], ss[5], 0);
    forall n | 0 <= n < |ss| - 1 ensures StepAt(ss, n) {
      assert Next(ss[0], ss[1]) && Next(ss[1], ss[2]) && Next(ss[2], ss[3]);
      assert Next(ss[3], ss[4]) && Next(ss[4], ss[5]);
      assert n == 0 || n == 1 || n == 2 || n == 3 || n == 4;
    }
  }

  // The rerun.

  /** The claim is there and is the caller's own, but its event is not in the ledger. */
  predicate Orphaned(l: Ledger, c: Call) {
    && c.claim.Some? && c.claim.value.slot in l.claims && l.claims[c.claim.value.slot].user == c.user
    && (c.key.None? || c.key.value !in l.applied)
  }

  /** A rerun after "already exists" ends in an answer, unless the claim it ran into
      is orphaned; then, and only then, it goes on to commit. */
  lemma RerunCommitsOnlyForOrphans(s: Server, t: Server, i: int)
    requires Inv(s) && Begins(s, t, i) && s.threads[i].phase.rerun
    ensures t.threads[i].phase.Waiting? <==> Orphaned(Now(s), s.threads[i].call) && Writes(Now(s), s.threads[i].call)
    ensures !t.threads[i].phase.Waiting? ==> t.threads[i].phase.Answered?
  {
    assert ThreadOk(s, i);
  }

  /** And that commit cannot succeed: neither now nor at any later time. */
  lemma OrphansNeverCommit(s: Server, t: Server, i: int)
    requires Inv(s) && i in s.threads && s.threads[i].phase.Waiting?
    requires Orphaned(s.history[s.threads[i].phase.snap], s.threads[i].call)
    ensures !Commits(s, t, i)
  {
    var snap := s.threads[i].phase.snap;
    assert ThreadOk(s, i);
    assert GrowsAt(s.history, snap, |s.history| - 1);
  }

  /** One call on its way: it arrived first and nobody else is there. */
  function Lone(l: Ledger, c: Call, phase: Phase): Server {
    Server([l], [], map[0 := Thread(c, 0, phase)])
  }

  lemma LoneActs(l: Ledger, c: Call, before: Phase, after: Phase)
    requires Orphaned(l, c) && Writes(l, c)
    requires || (before.Ready? && after == Waiting(0, before.rerun))
             || (before.Waiting? && after == if before.rerun then Unavailable(true) else Ready(true))
    ensures Next(Lone(l, c, before), Lone(l, c, after))
  {
    var s, t := Lone(l, c, before), Lone(l, c, after);
    assert t == Put(s, 0, after);
    assert ThreadActs(s, t, 0);
  }

  /** Whatever the ledger, a call that meets an orphaned claim collides, is run
      again, collides again and is given up; nothing is written. */
  lemma OrphansAreGivenUp(l: Ledger, c: Call) returns (ss: seq<Server>)
    requires Core(l) && ValidCall(c) && Orphaned(l, c) && Writes(l, c)
    ensures Behaviour(ss) && |ss| == 6 && ss[0].history == [l]
    ensures ss[4] == Lone(l, c, Waiting(0, true)) && ss[5] == Lone(l, c, Unavailable(true))
  {
    var s := Server([l], [], map[]);
    ss := [s, Lone(l, c, Ready(false)), Lone(l, c, Waiting(0, false)), Lone(l, c, Ready(true)),
           Lone(l, c, Waiting(0, true)), Lone(l, c, Unavailable(true))];
    assert Arrives(s, ss[1], 0, c);
    LoneActs(l, c, Ready(false), Waiting(0, false));
    LoneActs(l, c, Waiting(0, false), Ready(true));
    LoneActs(l, c, Ready(true), Waiting(0, true));
    LoneActs(l, c, Waiting(0, true), Unavailable(true));
    forall n | 0 <= n < |ss| - 1 ensures StepAt(ss, n) {
      assert Next(ss[0], ss[1]);
      assert n == 0 || n == 1 || n == 2 || n == 3 || n == 4;
    }
  }

  /** A purchase whose claim outlived its entry is such a call. */
  lemma OrphanedPurchaseIsGivenUp(user: string, id: string, amount: int, document: Document)
    returns (c: Call, ss: seq<Server>)
    requires amount > 0
    ensures PurchaseCall(c) && c.user == user && c.delta == amount && c.key == Some(Key(user, IapPurchase, Named(id)))
    ensures Behaviour(ss) && ss[|ss| - 1].threads == map[0 := Thread(c, 0, Unavailable(true))]
  {
    var slot := DocKey(Transactions, id);
    var l := EMPTY_LEDGER.(claims := map[slot := document.(user := user)]);
    var key := Key(user, IapPurchase, Named(id));
    c := Call(user, amount, IapPurchase, Some(key), None, Some(ExclusiveClaim(slot, document)));
    ss := OrphansAreGivenUp(l, c);
  }

  /** How the purchase service uses claims: the claim and the key name the same
      transaction, and nothing but purchases has claims. */
  predicate PurchaseCall(c: Call) {
    c.claim.Some? ==>
      && c.claim.value.slot.collection.Transactions?
      && c.key == Some(Key(c.user, IapPurchase, Named(c.claim.value.slot.id)))
  }

  ghost predicate NoOrphans(l: Ledger) {
    forall d :: d in l.claims && d.collection.Transactions? ==>
      Key(l.claims[d].user, IapPurchase, Named(d.id)) in l.applied
  }

  ghost predicate SettledInv(s: Server) {
    && |s.history| > 0 && NoOrphans(Now(s))
    && forall i :: i in s.threads ==>
         && PurchaseCall(s.threads[i].call)
         && !(s.threads[i].phase.Waiting? && s.threads[i].phase.rerun)
         && s.threads[i].phase != Unavailable(true)
  }

  lemma CommitKeepsNoOrphans(l: Ledger, c: Call)
    requires NoOrphans(l) && PurchaseCall(c) && Writes(l, c)
    ensures NoOrphans(Serial(l, c).0)
  {
  }

  lemma ActsStaySettled(s: Server, t: Server, i: int)
    requires Inv(s) && SettledInv(s) && ThreadActs(s, t, i) && !Commits(s, t, i)
    ensures SettledInv(t)
  {
    assert ThreadOk(s, i);
  }

  lemma CommitStaysSettled(s: Server, t: Server, i: int)
    requires Inv(s) && SettledInv(s) && Commits(s, t, i)
    ensures SettledInv(t)
  {
    assert ThreadOk(s, i);
    CommitIsSerial(s.history[s.threads[i].phase.snap], Now(s), s.threads[i].call);
    CommitKeepsNoOrphans(Now(s), s.threads[i].call);
  }

  lemma NextStaysSettled(s: Server, t: Server)
    requires Inv(s) && SettledInv(s) && Next(s, t)
    requires forall i :: i in t.threads ==> PurchaseCall(t.threads[i].call)
    ensures SettledInv(t)
  {
    if i, c :| Arrives(s, t, i, c) {
    } else if i :| ThreadActs(s, t, i) {
      if Commits(s, t, i) { CommitStaysSettled(s, t, i); } else { ActsStaySettled(s, t, i); }
    }
  }

  /** For purchases one rerun always settles the call: no run reaches a second
      "already exists". */
  lemma {:induction false} OneRerunSuffices(ss: seq<Server>, n: nat)
    requires Behaviour(ss) && n < |ss| && NoOrphans(ss[0].history[0])
    requires forall m, i :: 0 <= m < |ss| && i in ss[m].threads ==> PurchaseCall(ss[m].threads[i].call)
    ensures SettledInv(ss[n])
    ensures forall i :: i in ss[n].threads ==> ss[n].threads[i].phase != Unavailable(true)
    decreases n
  {
    if n > 0 {
      OneRerunSuffices(ss, n - 1);
      RunKeepsInv(ss, n - 1);
      assert StepAt(ss, n - 1);
      NextStaysSettled(ss[n - 1], ss[n]);
    }
  }
}
