/** The key cache under calls that overlap: the provider has no lock, so calls may
    pass a throttle together before any of them sets it. Reading a time, setting a
    time and storing fetched keys are one step each. */
module KeyFlights {
  import opened Wrappers
  import opened KeyCache

  /** Where a call is: before a check, before setting a time, or fetching. */
  datatype At =
    | AskStale | AskAttempt | Begin | Look | AskRotation | Mark | BeginAgain | LookAgain
    | Fetching(rotation: bool)

  datatype Flight = Flight(kid: string, at: At)

  /** `stale` and `rotation` are the times of all fetches made for either reason. */
  datatype System = System(cache: Cache, clock: int, flights: map<int, Flight>, stale: seq<int>, rotation: seq<int>)

  /** What one step of a call does: the new cache, where the call is then (None when
      it has ended), and whether it began a fetch for either reason. */
  datatype Move = Move(cache: Cache, at: Option<At>, stale: bool, rotation: bool)

  function Goes(c: Cache, at: At): Move { Move(c, Some(at), false, false) }

  function Ends(c: Cache): Move { Move(c, None, false, false) }

  /** One step; `fetched` is what a fetch brings. */
  function MoveOf(p: Settings, c: Cache, clock: int, f: Flight, fetched: Fetched): Move {
    match f.at
    case AskStale => Goes(c, if Since(c.loadedAt, clock, p.ttl) then AskAttempt else Look)
    case AskAttempt => Goes(c, if Since(c.attemptedAt, clock, p.interval) then Begin else Look)
    case Begin => Move(c.(attemptedAt := Some(clock)), Some(Fetching(false)), true, false)
    case Fetching(rotation) =>
      var next := if rotation then LookAgain else Look;
      if Brings(fetched) then Goes(c.(keys := fetched.keys, loadedAt := Some(clock)), next)
      else if fetched.Odd? || c.keys == map[] then Ends(c)
      else Goes(c, next)
    case Look => if f.kid in c.keys then Ends(c) else Goes(c, AskRotation)
    case AskRotation => if Since(c.rotationCheckedAt, clock, p.interval) then Goes(c, Mark) else Ends(c)
    case Mark => Move(c.(rotationCheckedAt := Some(clock)), Some(BeginAgain), false, true)
    case BeginAgain => Goes(c.(attemptedAt := Some(clock)), Fetching(true))
    case LookAgain => Ends(c)
  }

  // A call that is alone.

  /** When each step of a lone call is taken, and what its fetches bring. */
  function ClockAt(at: At, r: Readings): int {
    match at
    case AskStale => r.stale
    case AskAttempt => r.attempt
    case Begin => r.began
    case Fetching(rotation) => if rotation then r.loaded2 else r.loaded
    case Look => r.rotation
    case AskRotation => r.rotation
    case Mark => r.checked
    case BeginAgain => r.began2
    case LookAgain => r.loaded2
  }

  function Left(at: At): nat {
    match at
    case AskStale => 9
    case AskAttempt => 8
    case Begin => 7
    case Fetching(rotation) => if rotation then 1 else 6
    case Look => 5
    case AskRotation => 4
    case Mark => 3
    case BeginAgain => 2
    case LookAgain => 0
  }

  /** All the steps of a lone call, one after the other; `made` are the fetches so far. */
  function Solo(p: Settings, c: Cache, f: Flight, r: Readings, first: Fetched, second: Fetched, made: seq<Fetch>)
    : (Cache, seq<Fetch>)
    decreases Left(f.at)
  {
    var now := ClockAt(f.at, r);
    var m := MoveOf(p, c, now, f, if f.at == Fetching(true) then second else first);
    var all := if m.stale then made + [StaleFetch(now)]
               else if m.rotation then made + [RotationFetch(now)]
               else made;
    if m.at.None? then (m.cache, all) else Solo(p, m.cache, Flight(f.kid, m.at.value), r, first, second, all)
  }

  lemma SoloLooks(p: Settings, c: Cache, kid: string, r: Readings, first: Fetched, second: Fetched, made: seq<Fetch>)
    ensures var l := Rotated(p, c, kid, r, second, made);
            Solo(p, c, Flight(kid, Look), r, first, second, made) == (l.cache, l.fetches)
  {
    if kid !in c.keys && Since(c.rotationCheckedAt, r.rotation, p.interval) {
      var marked := c.(rotationCheckedAt := Some(r.checked));
      var begun := marked.(attemptedAt := Some(r.began2));
      var all := made + [RotationFetch(r.checked)];
      assert Solo(p, begun, Flight(kid, Fetching(true)), r, first, second, all)
          == (Refresh(marked, second, r.began2, r.loaded2).0, all);
      assert Solo(p, marked, Flight(kid, BeginAgain), r, first, second, all)
          == Solo(p, begun, Flight(kid, Fetching(true)), r, first, second, all);
      assert Solo(p, c, Flight(kid, AskRotation), r, first, second, made)
          == Solo(p, c, Flight(kid, Mark), r, first, second, made)
          == Solo(p, marked, Flight(kid, BeginAgain), r, first, second, all);
    }
  }

  /** A call that meets no other does, step by step, exactly what one whole lookup does. */
  lemma LoneCallIsALookup(p: Settings, c: Cache, kid: string, r: Readings, first: Fetched, second: Fetched)
    ensures var l := KeyFor(p, c, kid, r, first, second);
            Solo(p, c, Flight(kid, AskStale), r, first, second, []) == (l.cache, l.fetches)
  {
    SoloLooks(p, c, kid, r, first, second, []);
    if Since(c.loadedAt, r.stale, p.ttl) {
      assert Solo(p, c, Flight(kid, AskStale), r, first, second, [])
          == Solo(p, c, Flight(kid, AskAttempt), r, first, second, []);
      if Since(c.attemptedAt, r.attempt, p.interval) {
        SoloRenews(p, c, kid, r, first, second);
        SoloLooks(p, Refresh(c, first, r.began, r.loaded).0, kid, r, first, second, [StaleFetch(r.began)]);
      }
    }
  }

  lemma SoloRenews(p: Settings, c: Cache, kid: string, r: Readings, first: Fetched, second: Fetched)
    ensures var (renewed, error) := Refresh(c, first, r.began, r.loaded);
            var made := [StaleFetch(r.began)];
            Solo(p, c, Flight(kid, Begin), r, first, second, [])
            == if error.Some? then (renewed, made) else Solo(p, renewed, Flight(kid, Look), r, first, second, made)
  {
    var (renewed, error) := Refresh(c, first, r.began, r.loaded);
    var begun, made := c.(attemptedAt := Some(r.began)), [StaleFetch(r.began)];
    assert [] + made == made;
    assert Solo(p, c, Flight(kid, Begin), r, first, second, [])
        == Solo(p, begun, Flight(kid, Fetching(false)), r, first, second, made);
    assert Solo(p, begun, Flight(kid, Fetching(false)), r, first, second, made)
        == if error.Some? then (renewed, made) else Solo(p, renewed, Flight(kid, Look), r, first, second, made);
  }

  /** Call i takes this step. */
  function Moved(s: System, i: int, m: Move): System
    requires i in s.flights
  {
    System(m.cache, s.clock,
           if m.at.Some? then s.flights[i := s.flights[i].(at := m.at.value)] else s.flights - {i},
           if m.stale then s.stale + [s.clock] else s.stale,
           if m.rotation then s.rotation + [s.clock] else s.rotation)
  }

  function StepOf(p: Settings, s: System, i: int, fetched: Fetched): System
    requires i in s.flights
  {
    Moved(s, i, MoveOf(p, s.cache, s.clock, s.flights[i], fetched))
  }

  /** At most `k` calls are in flight. */
  ghost predicate Arrives(s: System, t: System, k: nat) {
    |s.flights| < k && exists i, kid :: ArrivesAs(s, t, i, kid)
  }

  predicate ArrivesAs(s: System, t: System, i: int, kid: string) {
    i !in s.flights && t == s.(flights := s.flights[i := Flight(kid, AskStale)])
  }

  ghost predicate Acts(p: Settings, s: System, t: System, i: int) {
    i in s.flights && exists fetched :: t == StepOf(p, s, i, fetched)
  }

  ghost predicate Ticks(s: System, t: System) { s.clock <= t.clock && t == s.(clock := t.clock) }

  ghost predicate Next(p: Settings, s: System, t: System, k: nat) {
    Arrives(s, t, k) || Ticks(s, t) || exists i :: Acts(p, s, t, i)
  }

  ghost predicate Init(s: System) { Past(s.cache, s.clock) && s.flights == map[] && s.stale == [] && s.rotation == [] }

  ghost predicate StepAt(p: Settings, ss: seq<System>, n: int, k: nat)
    requires 0 <= n < |ss| - 1
  {
    Next(p, ss[n], ss[n + 1], k)
  }

  ghost predicate Behaviour(p: Settings, ss: seq<System>, k: nat) {
    |ss| > 0 && Init(ss[0]) && forall n :: 0 <= n < |ss| - 1 ==> StepAt(p, ss, n, k)
  }

  // One throttle.

  /** Its last time, the fetches it let through, and the calls that have passed its
      check and not yet set its time. */
  datatype Throttle = Throttle(last: Option<int>, log: seq<int>, ready: set<int>)

  function StaleSide(s: System): Throttle {
    Throttle(s.cache.attemptedAt, s.stale, set i | i in s.flights && s.flights[i].at.Begin?)
  }

  function RotationSide(s: System): Throttle {
    Throttle(s.cache.rotationCheckedAt, s.rotation, set i | i in s.flights && s.flights[i].at.Mark?)
  }

  /** Times only go up and are no later than the last one. While a fetch is younger
      than `m`, the fetches since and the calls still to come are at most `k`; so any
      `k + 1` fetches in a row span at least `m`. */
  ghost predicate ThrottleOk(v: Throttle, from: int, clock: int, m: int, k: nat) {
    && from <= clock
    && (v.last.Some? ==> v.last.value <= clock)
    && (|v.log| > 0 ==> v.last.Some? && v.log[|v.log| - 1] <= v.last.value)
    && (forall a :: 0 <= a < |v.log| ==> from <= v.log[a])
    && (forall a, b :: 0 <= a <= b < |v.log| ==> v.log[a] <= v.log[b])
    && (forall a :: 0 <= a < |v.log| && clock < v.log[a] + m ==> |v.log| - a + |v.ready| <= k)
    && SpansAt(v.log, m, k)
  }

  ghost predicate SpansAt(log: seq<int>, m: int, k: nat) {
    forall a, b :: 0 <= a < |log| && b == a + k && b < |log| ==> log[a] + m <= log[b]
  }

  /** Nothing is let through: time passes, calls go away, the last time moves on. */
  predicate Rests(v: Throttle, w: Throttle, clock: int, later: int) {
    clock <= later && w.log == v.log && w.ready <= v.ready && (w.last == v.last || w.last == Some(later))
  }

  predicate LetsPass(v: Throttle, w: Throttle, clock: int, m: int, i: int) {
    Since(v.last, clock, m) && w == v.(ready := v.ready + {i})
  }

  predicate IsSet(v: Throttle, w: Throttle, clock: int, i: int) {
    i in v.ready && w == Throttle(Some(clock), v.log + [clock], v.ready - {i})
  }

  lemma RestKeepsOk(v: Throttle, w: Throttle, from: int, clock: int, later: int, m: int, k: nat)
    requires ThrottleOk(v, from, clock, m, k) && Rests(v, w, clock, later)
    ensures ThrottleOk(w, from, later, m, k)
  {
    SubsetIsSmaller(w.ready, v.ready);
  }

  /** A call that passes the check finds every earlier fetch old enough. */
  lemma PassKeepsOk(v: Throttle, w: Throttle, from: int, clock: int, m: int, k: nat, i: int)
    requires ThrottleOk(v, from, clock, m, k) && LetsPass(v, w, clock, m, i)
    ensures ThrottleOk(w, from, clock, m, k)
  {
    forall a | 0 <= a < |v.log| ensures v.log[a] + m <= clock {
      assert v.log[a] <= v.log[|v.log| - 1];
    }
  }

  lemma SetKeepsOk(v: Throttle, w: Throttle, from: int, clock: int, m: int, k: nat, i: int)
    requires ThrottleOk(v, from, clock, m, k) && IsSet(v, w, clock, i) && |v.ready| <= k && m > 0
    ensures ThrottleOk(w, from, clock, m, k)
  {
    assert |w.ready| == |v.ready| - 1;
    forall a, b | 0 <= a < |w.log| && b == a + k && b < |w.log| ensures w.log[a] + m <= w.log[b] {
      if b == |v.log| && a < b {
        assert !(clock < v.log[a] + m);
      }
    }
  }

  lemma SubsetIsSmaller(a: set<int>, b: set<int>)
    requires a <= b
    ensures |a| <= |b|
  {
    assert b == a + (b - a);
  }

  // Both throttles in every run.

  ghost predicate Inv(p: Settings, s: System, from: int, k: nat) {
    && |s.flights| <= k
    && ThrottleOk(StaleSide(s), from, s.clock, p.interval, k)
    && ThrottleOk(RotationSide(s), from, s.clock, p.interval, k)
  }

  lemma ReadyAreInFlight(s: System)
    ensures |StaleSide(s).ready| <= |s.flights| && |RotationSide(s).ready| <= |s.flights|
  {
    SubsetIsSmaller(StaleSide(s).ready, s.flights.Keys);
    SubsetIsSmaller(RotationSide(s).ready, s.flights.Keys);
    assert |s.flights.Keys| == |s.flights|;
  }

  /** What a step of one call is for the first throttle. */
  lemma StaleSideSteps(p: Settings, s: System, i: int, fetched: Fetched)
    requires i in s.flights
    ensures var t := StepOf(p, s, i, fetched);
            var v, w := StaleSide(s), StaleSide(t);
            match s.flights[i].at
            case AskAttempt => LetsPass(v, w, s.clock, p.interval, i) || Rests(v, w, s.clock, s.clock)
            case Begin => IsSet(v, w, s.clock, i)
            case _ => Rests(v, w, s.clock, s.clock)
  {
    var t := StepOf(p, s, i, fetched);
    if s.flights[i].at.Begin? {
      assert StaleSide(t).ready == StaleSide(s).ready - {i};
    } else if s.flights[i].at.AskAttempt? && Since(s.cache.attemptedAt, s.clock, p.interval) {
      assert StaleSide(t).ready == StaleSide(s).ready + {i};
    }
  }

  /** ... and for the second. */
  lemma RotationSideSteps(p: Settings, s: System, i: int, fetched: Fetched)
    requires i in s.flights
    ensures var t := StepOf(p, s, i, fetched);
            var v, w := RotationSide(s), RotationSide(t);
            match s.flights[i].at
            case AskRotation => LetsPass(v, w, s.clock, p.interval, i) || Rests(v, w, s.clock, s.clock)
            case Mark => IsSet(v, w, s.clock, i)
            case _ => Rests(v, w, s.clock, s.clock)
  {
    var t := StepOf(p, s, i, fetched);
    if s.flights[i].at.Mark? {
      assert RotationSide(t).ready == RotationSide(s).ready - {i};
    } else if s.flights[i].at.AskRotation? && Since(s.cache.rotationCheckedAt, s.clock, p.interval) {
      assert RotationSide(t).ready == RotationSide(s).ready + {i};
    }
  }

  lemma ThrottleStep(v: Throttle, w: Throttle, from: int, clock: int, m: int, k: nat, i: int)
    requires ThrottleOk(v, from, clock, m, k) && |v.ready| <= k && m > 0
    requires LetsPass(v, w, clock, m, i) || IsSet(v, w, clock, i) || Rests(v, w, clock, clock)
    ensures ThrottleOk(w, from, clock, m, k)
  {
    if LetsPass(v, w, clock, m, i) {
      PassKeepsOk(v, w, from, clock, m, k, i);
    } else if IsSet(v, w, clock, i) {
      SetKeepsOk(v, w, from, clock, m, k, i);
    } else {
      RestKeepsOk(v, w, from, clock, clock, m, k);
    }
  }

  lemma StepsAddNoFlight(p: Settings, s: System, i: int, fetched: Fetched)
    requires i in s.flights
    ensures var t := StepOf(p, s, i, fetched); t.clock == s.clock && |t.flights| <= |s.flights|
  {
    var t := StepOf(p, s, i, fetched);
    assert t.flights.Keys <= s.flights.Keys;
    SubsetIsSmaller(t.flights.Keys, s.flights.Keys);
    assert |t.flights| == |t.flights.Keys| && |s.flights| == |s.flights.Keys|;
  }

  lemma ActKeepsInv(p: Settings, s: System, i: int, fetched: Fetched, from: int, k: nat)
    requires Inv(p, s, from, k) && i in s.flights && p.interval > 0
    ensures Inv(p, StepOf(p, s, i, fetched), from, k)
  {
    var t := StepOf(p, s, i, fetched);
    StepsAddNoFlight(p, s, i, fetched);
    ReadyAreInFlight(s);
    StaleSideSteps(p, s, i, fetched);
    ThrottleStep(StaleSide(s), StaleSide(t), from, s.clock, p.interval, k, i);
    RotationSideSteps(p, s, i, fetched);
    ThrottleStep(RotationSide(s), RotationSide(t), from, s.clock, p.interval, k, i);
  }

  lemma PassiveKeepsInv(p: Settings, s: System, t: System, from: int, k: nat)
    requires Inv(p, s, from, k) && (Arrives(s, t, k) || Ticks(s, t))
    ensures Inv(p, t, from, k)
  {
    assert |t.flights| <= k by {
      assert |s.flights.Keys| == |s.flights| && |t.flights.Keys| == |t.flights|;
      if Arrives(s, t, k) {
        var i, kid :| ArrivesAs(s, t, i, kid);
        assert t.flights.Keys == s.flights.Keys + {i};
      }
    }
    assert StaleSide(t).ready == StaleSide(s).ready && RotationSide(t).ready == RotationSide(s).ready;
    RestKeepsOk(StaleSide(s), StaleSide(t), from, s.clock, t.clock, p.interval, k);
    RestKeepsOk(RotationSide(s), RotationSide(t), from, s.clock, t.clock, p.interval, k);
  }

  lemma NextKeepsInv(p: Settings, s: System, t: System, from: int, k: nat)
    requires Inv(p, s, from, k) && Next(p, s, t, k) && p.interval > 0
    ensures Inv(p, t, from, k)
  {
    if i :| Acts(p, s, t, i) {
      var fetched :| t == StepOf(p, s, i, fetched);
      ActKeepsInv(p, s, i, fetched, from, k);
    } else {
      PassiveKeepsInv(p, s, t, from, k);
    }
  }

  lemma {:induction false} RunKeepsInv(p: Settings, ss: seq<System>, k: nat, n: nat)
    requires Behaviour(p, ss, k) && n < |ss| && p.interval > 0
    ensures Inv(p, ss[n], ss[0].clock, k)
    decreases n
  {
    if n == 0 {
      assert StaleSide(ss[0]).ready == {} && RotationSide(ss[0]).ready == {};
    } else {
      RunKeepsInv(p, ss, k, n - 1);
      assert StepAt(p, ss, n - 1, k);
      NextKeepsInv(p, ss[n - 1], ss[n], ss[0].clock, k);
    }
  }

  // The bound.

  /** Every k-th fetch is one interval later. */
  lemma {:induction false} SpansGrow(log: seq<int>, m: int, k: nat, j: nat)
    requires SpansAt(log, m, k) && k > 0 && j * k < |log|
    ensures log[0] + j * m <= log[j * k]
    decreases j
  {
    if j > 0 {
      assert j * k == (j - 1) * k + k && j * m == (j - 1) * m + m;
      ProductGrows(0, j - 1, k);
      SpansGrow(log, m, k, j - 1);
      assert log[(j - 1) * k] + m <= log[j * k];
    } else {
      assert j * k == 0 && j * m == 0;
    }
  }

  lemma LogBound(v: Throttle, from: int, clock: int, m: int, k: nat)
    requires ThrottleOk(v, from, clock, m, k) && m > 0 && k > 0
    ensures |v.log| <= k * ((clock - from) / m + 1)
  {
    var n := |v.log|;
    if n > 0 {
      var j := (n - 1) / k;
      assert n - 1 == j * k + (n - 1) % k;
      SpansGrow(v.log, m, k, j);
      assert v.log[j * k] <= v.log[n - 1] <= clock && from <= v.log[0];
      FitsInSpan(j, m, clock - from);
      ProductGrows(j + 1, (clock - from) / m + 1, k);
      assert n <= (j + 1) * k;
    } else {
      FitsInSpan(0, m, clock - from);
      ProductGrows(0, (clock - from) / m + 1, k);
    }
  }

  /** With at most `k` calls in flight at any moment, however they interleave and
      however their fetches turn out, a span of time sees at most
      2 * k * (span / interval + 1) fetches. */
  lemma FetchesAreBounded(p: Settings, ss: seq<System>, k: nat, n: nat)
    requires Behaviour(p, ss, k) && n < |ss| && p.interval > 0 && k > 0
    ensures |ss[n].stale| + |ss[n].rotation| <= 2 * (k * ((ss[n].clock - ss[0].clock) / p.interval + 1))
  {
    RunKeepsInv(p, ss, k, n);
    LogBound(StaleSide(ss[n]), ss[0].clock, ss[n].clock, p.interval, k);
    LogBound(RotationSide(ss[n]), ss[0].clock, ss[n].clock, p.interval, k);
  }

  // The bound is met.

  function Ids(k: nat): (ids: set<int>)
    ensures |ids| == k && forall i :: i in ids <==> 0 <= i < k
  {
    if k == 0 then {} else Ids(k - 1) + {k - 1}
  }

  /** `k` calls for one key at time 0, of which the first `j` have gone on from `a`
      to `b`. */
  function Line(k: nat, j: nat, kid: string, a: At, b: At, c: Cache, stale: seq<int>, rotation: seq<int>): System {
    System(c, 0, map i | i in Ids(k) :: Flight(kid, if i < j then b else a), stale, rotation)
  }

  function Zeros(n: nat): seq<int> { seq(n, _ => 0) }

  /** A run that ends in this state, at the time at which it began. */
  ghost predicate EndsIn(p: Settings, ss: seq<System>, k: nat, s: System) {
    Behaviour(p, ss, k) && ss[|ss| - 1] == s && ss[0].clock == s.clock
  }

  /** A run that goes on along `ts`. */
  lemma Continues(p: Settings, ss: seq<System>, ts: seq<System>, k: nat)
    requires |ts| > 0 && EndsIn(p, ss, k, ts[0]) && ts[|ts| - 1].clock == ts[0].clock
    requires forall n :: 0 <= n < |ts| - 1 ==> StepAt(p, ts, n, k)
    ensures EndsIn(p, ss + ts[1..], k, ts[|ts| - 1])
  {
    var all := ss + ts[1..];
    forall n | 0 <= n < |all| - 1 ensures StepAt(p, all, n, k) {
      if n < |ss| - 1 {
        assert StepAt(p, ss, n, k);
      } else {
        assert StepAt(p, ts, n - |ss| + 1, k);
      }
    }
  }

  function Arrived(n: nat, kid: string): System { Line(n, 0, kid, AskStale, AskStale, EMPTY_CACHE, [], []) }

  lemma OneMore(p: Settings, k: nat, n: nat, kid: string)
    requires n < k
    ensures Next(p, Arrived(n, kid), Arrived(n + 1, kid), k)
  {
    var s, t := Arrived(n, kid), Arrived(n + 1, kid);
    assert |s.flights| == n by { assert s.flights.Keys == Ids(n) && |s.flights.Keys| == |s.flights|; }
    assert ArrivesAs(s, t, n, kid) by { assert t.flights == s.flights[n := Flight(kid, AskStale)]; }
    assert Arrives(s, t, k);
  }

  /** `k` calls arrive. */
  lemma Gather(p: Settings, k: nat, kid: string) returns (ss: seq<System>)
    ensures EndsIn(p, ss, k, Arrived(k, kid))
  {
    var start := [Arrived(0, kid)];
    var ts := seq(k + 1, n requires 0 <= n <= k => Arrived(n, kid));
    forall n | 0 <= n < |ts| - 1 ensures StepAt(p, ts, n, k) {
      OneMore(p, k, n, kid);
    }
    assert EndsIn(p, start, k, ts[0]);
    Continues(p, start, ts, k);
    ss := start + ts[1..];
  }

  /** The line after `j` of its calls made the same move from the cache `c`. */
  function Midway(k: nat, j: nat, kid: string, a: At, c: Cache, m: Move, stale: seq<int>, rotation: seq<int>): System
    requires m.at.Some?
  {
    Line(k, j, kid, a, m.at.value, if j == 0 then c else m.cache,
         if m.stale then stale + Zeros(j) else stale, if m.rotation then rotation + Zeros(j) else rotation)
  }

  lemma NextInLine(k: nat, i: nat, kid: string, a: At, c: Cache, m: Move, stale: seq<int>, rotation: seq<int>)
    requires i < k && m.at.Some?
    ensures Moved(Midway(k, i, kid, a, c, m, stale, rotation), i, m)
         == Midway(k, i + 1, kid, a, c, m, stale, rotation)
  {
    var s, t := Midway(k, i, kid, a, c, m, stale, rotation), Midway(k, i + 1, kid, a, c, m, stale, rotation);
    assert s.flights[i := Flight(kid, m.at.value)] == t.flights;
    assert Zeros(i) + [0] == Zeros(i + 1);
    assert stale + Zeros(i) + [0] == stale + Zeros(i + 1) && rotation + Zeros(i) + [0] == rotation + Zeros(i + 1);
  }

  lemma LineSteps(p: Settings, k: nat, i: nat, kid: string, a: At, c: Cache, m: Move, fetched: Fetched,
                  stale: seq<int>, rotation: seq<int>)
    requires i < k && m.at.Some?
    requires MoveOf(p, c, 0, Flight(kid, a), fetched) == m && MoveOf(p, m.cache, 0, Flight(kid, a), fetched) == m
    ensures Next(p, Midway(k, i, kid, a, c, m, stale, rotation), Midway(k, i + 1, kid, a, c, m, stale, rotation), k)
  {
    var s, t := Midway(k, i, kid, a, c, m, stale, rotation), Midway(k, i + 1, kid, a, c, m, stale, rotation);
    NextInLine(k, i, kid, a, c, m, stale, rotation);
    assert t == StepOf(p, s, i, fetched);
    assert Acts(p, s, t, i);
  }

  /** All calls of a line make the same move, whether or not others made it before. */
  lemma LinePath(p: Settings, k: nat, kid: string, a: At, c: Cache, m: Move, fetched: Fetched,
                 stale: seq<int>, rotation: seq<int>) returns (ts: seq<System>)
    requires m.at.Some?
    requires MoveOf(p, c, 0, Flight(kid, a), fetched) == m && MoveOf(p, m.cache, 0, Flight(kid, a), fetched) == m
    ensures |ts| == k + 1 && forall n :: 0 <= n < |ts| - 1 ==> StepAt(p, ts, n, k)
    ensures ts[0] == Midway(k, 0, kid, a, c, m, stale, rotation)
    ensures ts[k] == Midway(k, k, kid, a, c, m, stale, rotation)
  {
    ts := seq(k + 1, j requires 0 <= j <= k => Midway(k, j, kid, a, c, m, stale, rotation));
    forall n | 0 <= n < |ts| - 1 ensures StepAt(p, ts, n, k) {
      LineSteps(p, k, n, kid, a, c, m, fetched, stale, rotation);
    }
  }

  lemma LineEnds(k: nat, kid: string, a: At, c: Cache, m: Move, stale: seq<int>, rotation: seq<int>)
    requires k > 0 && m.at.Some?
    ensures Midway(k, 0, kid, a, c, m, stale, rotation) == Line(k, 0, kid, a, a, c, stale, rotation)
    ensures Midway(k, k, kid, a, c, m, stale, rotation)
         == Line(k, 0, kid, m.at.value, m.at.value, m.cache, if m.stale then stale + Zeros(k) else stale,
                 if m.rotation then rotation + Zeros(k) else rotation)
  {
    var b, s, t := m.at.value, Midway(k, 0, kid, a, c, m, stale, rotation), Midway(k, k, kid, a, c, m, stale, rotation);
    assert stale + Zeros(0) == stale && rotation + Zeros(0) == rotation;
    assert s.flights == Line(k, 0, kid, a, a, c, stale, rotation).flights;
    assert t.flights == Line(k, 0, kid, b, b, m.cache, t.stale, t.rotation).flights;
  }

  lemma Advance(p: Settings, k: nat, kid: string, a: At, c: Cache, m: Move, fetched: Fetched,
                stale: seq<int>, rotation: seq<int>, before: seq<System>) returns (ss: seq<System>)
    requires k > 0 && m.at.Some? && EndsIn(p, before, k, Line(k, 0, kid, a, a, c, stale, rotation))
    requires MoveOf(p, c, 0, Flight(kid, a), fetched) == m && MoveOf(p, m.cache, 0, Flight(kid, a), fetched) == m
    ensures EndsIn(p, ss, k, Line(k, 0, kid, m.at.value, m.at.value, m.cache,
                                  if m.stale then stale + Zeros(k) else stale,
                                  if m.rotation then rotation + Zeros(k) else rotation))
  {
    var ts := LinePath(p, k, kid, a, c, m, fetched, stale, rotation);
    LineEnds(k, kid, a, c, m, stale, rotation);
    Continues(p, before, ts, k);
    ss := before + ts[1..];
  }

  /** `k` calls at one moment: all of them find no keys and refresh, all of them find
      that the keys do not help and look for a rotated one. */
  lemma BoundIsMet(p: Settings, k: nat, kid: string, other: string, key: PublicKey) returns (ss: seq<System>)
    requires p.interval > 0 && k > 0 && kid != other
    ensures Behaviour(p, ss, k) && ss[|ss| - 1].clock == ss[0].clock
    ensures |ss[|ss| - 1].stale| + |ss[|ss| - 1].rotation| == 2 * k
  {
    var c0 := EMPTY_CACHE;
    var c1 := c0.(attemptedAt := Some(0));
    var found := Keys(map[other := key]);
    assert other in found.keys;
    var c2 := c1.(keys := found.keys, loadedAt := Some(0));
    var c3 := c2.(rotationCheckedAt := Some(0));
    ss := Gather(p, k, kid);
    ss := Advance(p, k, kid, AskStale, c0, Goes(c0, AskAttempt), Broken, [], [], ss);
    ss := Advance(p, k, kid, AskAttempt, c0, Goes(c0, Begin), Broken, [], [], ss);
    ss := Advance(p, k, kid, Begin, c0, Move(c1, Some(Fetching(false)), true, false), Broken, [], [], ss);
    ss := Advance(p, k, kid, Fetching(false), c1, Goes(c2, Look), found, [] + Zeros(k), [], ss);
    ss := Advance(p, k, kid, Look, c2, Goes(c2, AskRotation), Broken, [] + Zeros(k), [], ss);
    ss := Advance(p, k, kid, AskRotation, c2, Goes(c2, Mark), Broken, [] + Zeros(k), [], ss);
    ss := Advance(p, k, kid, Mark, c2, Move(c3, Some(BeginAgain), false, true), Broken, [] + Zeros(k), [], ss);
  }
}
