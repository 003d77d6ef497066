/** The public-key cache of app/auth/jwks.py, which app/ads/verifier.py repeats:
    a lifetime for good keys, a throttle on refreshing and a separate throttle on
    looking for a rotated key. */
module KeyCache {
  import opened Wrappers

  type PublicKey = int

  /** What one fetch brings: an exception that the cache knows, one that it does not
      (the answer is JSON, but no object), or the keys it parsed (perhaps none). */
  datatype Fetched = Broken | Odd | Keys(keys: map<string, PublicKey>)

  /** `Uncaught` is the exception that the cache lets through. */
  datatype KeyError = UnknownKid | KeysUnavailable | Uncaught

  datatype Cache = Cache(keys: map<string, PublicKey>, loadedAt: Option<int>, attemptedAt: Option<int>,
                         rotationCheckedAt: Option<int>)

  const EMPTY_CACHE := Cache(map[], None, None, None)

  datatype Settings = Settings(ttl: int, interval: int)

  /** The clock readings of one `key_for`, in the order in which they are taken:
      is the cache stale, may it be refreshed, start and end of that refresh; may
      a rotation be looked for, when it was, start and end of that refresh. */
  datatype Readings = Readings(
    stale: int, attempt: int, began: int, loaded: int, rotation: int, checked: int, began2: int, loaded2: int)
  {
    predicate Monotone(from: int) {
      from <= stale <= attempt <= began <= loaded <= rotation <= checked <= began2 <= loaded2
    }
  }

  predicate Since(last: Option<int>, now: int, span: int) { last.None? || now - last.value >= span }

  /** `_refresh`: the new cache, and the error it raises, if any: when there is
      nothing to live on, or when it does not know the exception. */
  function Refresh(c: Cache, fetched: Fetched, began: int, loaded: int): (Cache, Option<KeyError>) {
    var tried := c.(attemptedAt := Some(began));
    if fetched.Odd? then (tried, Some(Uncaught))
    else if fetched.Keys? && fetched.keys != map[] then
      (tried.(keys := fetched.keys, loadedAt := Some(loaded)), None)
    else (tried, if c.keys != map[] then None else Some(KeysUnavailable))
  }

  datatype Fetch = StaleFetch(at: int) | RotationFetch(at: int)

  datatype Lookup = Lookup(cache: Cache, result: Result<PublicKey, KeyError>, fetches: seq<Fetch>)

  /** `key_for`, with the fetches it made. */
  function KeyFor(s: Settings, c: Cache, kid: string, r: Readings, first: Fetched, second: Fetched): Lookup {
    if Since(c.loadedAt, r.stale, s.ttl) && Since(c.attemptedAt, r.attempt, s.interval) then
      var (renewed, error) := Refresh(c, first, r.began, r.loaded);
      if error.Some? then Lookup(renewed, Failure(error.value), [StaleFetch(r.began)])
      else Rotated(s, renewed, kid, r, second, [StaleFetch(r.began)])
    else Rotated(s, c, kid, r, second, [])
  }

  function Rotated(s: Settings, c: Cache, kid: string, r: Readings, second: Fetched, fetches: seq<Fetch>): Lookup {
    if kid in c.keys then Lookup(c, Success(c.keys[kid]), fetches)
    else if Since(c.rotationCheckedAt, r.rotation, s.interval) then
      var (renewed, error) := Refresh(c.(rotationCheckedAt := Some(r.checked)), second, r.began2, r.loaded2);
      var all := fetches + [RotationFetch(r.checked)];
      if error.Some? then Lookup(renewed, Failure(error.value), all)
      else if kid in renewed.keys then Lookup(renewed, Success(renewed.keys[kid]), all)
      else Lookup(renewed, Failure(UnknownKid), all)
    else Lookup(c, Failure(UnknownKid), fetches)
  }

  // One provider, in its own form.

  class KeyProvider {
    const settings: Settings
    var keys: map<string, PublicKey>
    var loadedAt: Option<int>
    var attemptedAt: Option<int>
    var rotationCheckedAt: Option<int>
    ghost var fetches: seq<Fetch>

    constructor (settings: Settings)
      ensures this.settings == settings && View() == EMPTY_CACHE && fetches == []
    {
      this.settings := settings;
      keys, loadedAt, attemptedAt, rotationCheckedAt, fetches := map[], None, None, None, [];
    }

    function View(): Cache
      reads this
    {
      Cache(keys, loadedAt, attemptedAt, rotationCheckedAt)
    }

    method Reload(fetched: Fetched, began: int, loaded: int) returns (error: Option<KeyError>)
      modifies this`keys, this`loadedAt, this`attemptedAt
      ensures (View(), error) == Refresh(old(View()), fetched, began, loaded)
    {
      attemptedAt := Some(began);
      match fetched
      case Odd =>
        return Some(Uncaught);
      case Broken =>
        return if keys != map[] then None else Some(KeysUnavailable);
      case Keys(found) =>
        if found == map[] {
          return if keys != map[] then None else Some(KeysUnavailable);
        }
        keys := found;
        loadedAt := Some(loaded);
        return None;
    }

    method Find(kid: string, r: Readings, first: Fetched, second: Fetched) returns (result: Result<PublicKey, KeyError>)
      modifies this
      ensures var l := KeyFor(settings, old(View()), kid, r, first, second);
              View() == l.cache && result == l.result && fetches == old(fetches) + l.fetches
    {
      if Since(loadedAt, r.stale, settings.ttl) && Since(attemptedAt, r.attempt, settings.interval) {
        fetches := fetches + [StaleFetch(r.began)];
        var error := Reload(first, r.began, r.loaded);
        if error.Some? {
          return Failure(error.value);
        }
      }
      if kid in keys {
        return Success(keys[kid]);
      }
      if Since(rotationCheckedAt, r.rotation, settings.interval) {
        rotationCheckedAt := Some(r.checked);
        fetches := fetches + [RotationFetch(r.checked)];
        var error := Reload(second, r.began2, r.loaded2);
        if error.Some? {
          return Failure(error.value);
        }
        if kid in keys {
          return Success(keys[kid]);
        }
      }
      return Failure(UnknownKid);
    }
  }

  // What a lookup answers.

  predicate Brings(fetched: Fetched) { fetched.Keys? && fetched.keys != map[] }

  /** The cache is past its lifetime and the last attempt to renew it is long ago. */
  predicate IsDue(s: Settings, c: Cache, r: Readings) {
    && (c.loadedAt == None || c.loadedAt.value + s.ttl <= r.stale)
    && (c.attemptedAt == None || c.attemptedAt.value + s.interval <= r.attempt)
  }

  /** The last look for a rotated key is long ago. */
  predicate MayLook(s: Settings, c: Cache, r: Readings) {
    c.rotationCheckedAt == None || c.rotationCheckedAt.value + s.interval <= r.rotation
  }

  /** The keys at hand once a cache that is due was renewed. */
  function Kept(s: Settings, c: Cache, r: Readings, first: Fetched): map<string, PublicKey> {
    if IsDue(s, c, r) && Brings(first) then first.keys else c.keys
  }

  /** The renewal ends the call: it brought what the cache does not know, or nothing
      while there is nothing to live on. */
  predicate EndsEarly(s: Settings, c: Cache, r: Readings, first: Fetched) {
    IsDue(s, c, r) && (first.Odd? || Kept(s, c, r, first) == map[])
  }

  /** The key is not at hand, and a rotated key may be looked for. */
  predicate Looks(s: Settings, c: Cache, kid: string, r: Readings, first: Fetched) {
    !EndsEarly(s, c, r, first) && kid !in Kept(s, c, r, first) && MayLook(s, c, r)
  }

  /** The keys at the end of the call. */
  function Known(s: Settings, c: Cache, kid: string, r: Readings, first: Fetched, second: Fetched)
    : map<string, PublicKey>
  {
    if Looks(s, c, kid, r, first) && Brings(second) then second.keys else Kept(s, c, r, first)
  }

  /** When a lookup answers a key, and which; when it fails, and how; what it fetches,
      and what it leaves in the cache. */
  lemma LookupAnswers(s: Settings, c: Cache, kid: string, r: Readings, first: Fetched, second: Fetched)
    ensures var l := KeyFor(s, c, kid, r, first, second);
            var due, early, looks := IsDue(s, c, r), EndsEarly(s, c, r, first), Looks(s, c, kid, r, first);
            var known := Known(s, c, kid, r, first, second);
            && (l.result == Failure(Uncaught) <==> (due && first.Odd?) || (looks && second.Odd?))
            && (l.result == Failure(KeysUnavailable) <==>
                  known == map[] && ((due && !first.Odd?) || (looks && !second.Odd?)))
            && (l.result == Failure(UnknownKid) <==>
                  !early && kid !in known && (looks ==> !second.Odd? && known != map[]))
            && (forall key :: l.result == Success(key) <==>
                  !early && !(looks && second.Odd?) && kid in known && known[kid] == key)
            && l.fetches == (if due then [StaleFetch(r.began)] else [])
                            + (if looks then [RotationFetch(r.checked)] else [])
            && l.cache == Cache(known,
                                if looks && Brings(second) then Some(r.loaded2)
                                else if due && Brings(first) then Some(r.loaded) else c.loadedAt,
                                if looks then Some(r.began2) else if due then Some(r.began) else c.attemptedAt,
                                if looks then Some(r.checked) else c.rotationCheckedAt)
  {
  }

  /** A key that was rotated in is found by the first lookup that may look for it. */
  lemma RotatedKeyIsFound(s: Settings, c: Cache, kid: string, r: Readings, first: Fetched, second: Fetched)
    requires !(IsDue(s, c, r) && (first.Odd? || Brings(first) || c.keys == map[]))
    requires kid !in c.keys && MayLook(s, c, r) && second.Keys? && kid in second.keys
    ensures var l := KeyFor(s, c, kid, r, first, second);
            && l.result == Success(second.keys[kid]) && l.cache.keys == second.keys
            && l.cache.loadedAt == Some(r.loaded2) && RotationFetch(r.checked) in l.fetches
  {
    LookupAnswers(s, c, kid, r, first, second);
  }

  /** Within its lifetime a cache answers the keys that it has and fetches nothing. */
  lemma FreshCacheIsServed(s: Settings, c: Cache, kid: string, r: Readings, first: Fetched, second: Fetched)
    requires c.loadedAt.Some? && r.stale < c.loadedAt.value + s.ttl && kid in c.keys
    ensures KeyFor(s, c, kid, r, first, second) == Lookup(c, Success(c.keys[kid]), [])
  {
    LookupAnswers(s, c, kid, r, first, second);
  }

  // Any sequence of calls.

  datatype Call = Call(kid: string, readings: Readings, first: Fetched, second: Fetched)

  /** The clock never runs backwards. */
  predicate Ordered(calls: seq<Call>, from: int)
    decreases |calls|
  {
    calls == [] || (calls[0].readings.Monotone(from) && Ordered(calls[1..], calls[0].readings.loaded2))
  }

  function End(calls: seq<Call>, from: int): int
    decreases |calls|
  {
    if calls == [] then from else End(calls[1..], calls[0].readings.loaded2)
  }

  function Run(s: Settings, c: Cache, calls: seq<Call>): (Cache, seq<Fetch>)
    decreases |calls|
  {
    if calls == [] then (c, [])
    else
      var x := calls[0];
      var one := KeyFor(s, c, x.kid, x.readings, x.first, x.second);
      var (last, rest) := Run(s, one.cache, calls[1..]);
      (last, one.fetches + rest)
  }

  /** How often one throttle let a fetch through. */
  function Times(fetches: seq<Fetch>, stale: bool): seq<int> {
    if fetches == [] then []
    else (if fetches[0].StaleFetch? == stale then [fetches[0].at] else []) + Times(fetches[1..], stale)
  }

  lemma {:induction false} TimesOfConcat(a: seq<Fetch>, b: seq<Fetch>, stale: bool)
    ensures Times(a + b, stale) == Times(a, stale) + Times(b, stale)
  {
    if a == [] {
      assert a + b == b;
    } else {
      assert (a + b)[0] == a[0] && (a + b)[1..] == a[1..] + b;
      TimesOfConcat(a[1..], b, stale);
    }
  }

  lemma {:induction false} TimesCount(fetches: seq<Fetch>)
    ensures |fetches| == |Times(fetches, true)| + |Times(fetches, false)|
  {
    if fetches != [] {
      TimesCount(fetches[1..]);
    }
  }

  /** Neighbouring times are at least `m` apart, the first comes `m` after `last`
      if there is one, and all lie between `from` and `to`. */
  predicate Spaced(times: seq<int>, last: Option<int>, m: int, from: int, to: int) {
    && (forall i :: 0 <= i < |times| ==> from <= times[i] <= to)
    && (forall i :: 0 <= i < |times| - 1 ==> times[i] + m <= times[i + 1])
    && (|times| > 0 ==> Since(last, times[0], m))
  }

  lemma SpacedPrepend(t: int, times: seq<int>, last: Option<int>, m: int, from: int, to: int, next: int)
    requires Spaced(times, Some(t), m, next, to) && from <= t <= next <= to && Since(last, t, m)
    ensures Spaced([t] + times, last, m, from, to)
  {
    var all := [t] + times;
    forall i | 0 <= i < |all| - 1 ensures all[i] + m <= all[i + 1] {
      if i > 0 { assert all[i] == times[i - 1] && all[i + 1] == times[i]; }
    }
  }

  lemma {:induction false} SpacedGrows(times: seq<int>, m: int, i: nat)
    requires i < |times| && forall j :: 0 <= j < |times| - 1 ==> times[j] + m <= times[j + 1]
    ensures times[0] + i * m <= times[i]
    decreases i
  {
    if i > 0 {
      SpacedGrows(times, m, i - 1);
      assert times[i - 1] + m <= times[i - 1 + 1];
      assert i * m == (i - 1) * m + m;
    }
  }

  lemma ProductGrows(a: int, b: int, m: int)
    requires a <= b && m > 0
    ensures a * m <= b * m
  {
    assert (b - a) * m >= 0;
  }

  lemma FitsInSpan(n: int, m: int, span: int)
    requires m > 0 && n * m <= span
    ensures n <= span / m
  {
    var q := span / m;
    assert span < (q + 1) * m by {
      assert span == q * m + span % m;
    }
    if q + 1 <= n {
      ProductGrows(q + 1, n, m);
      assert false;
    }
  }

  lemma SpacedBound(times: seq<int>, last: Option<int>, m: int, from: int, to: int)
    requires Spaced(times, last, m, from, to) && m > 0 && from <= to
    ensures |times| <= (to - from) / m + 1
  {
    if |times| > 0 {
      SpacedGrows(times, m, |times| - 1);
      FitsInSpan(|times| - 1, m, to - from);
    }
  }

  /** The cache's own times lie in the past. */
  predicate Past(c: Cache, now: int) {
    && (c.attemptedAt.Some? ==> c.attemptedAt.value <= now)
    && (c.rotationCheckedAt.Some? ==> c.rotationCheckedAt.value <= now)
  }

  lemma TimesOfOne(a: Fetch, stale: bool)
    ensures Times([a], stale) == if a.StaleFetch? == stale then [a.at] else []
  {
    assert [a][1..] == [];
  }

  lemma TimesOfTwo(a: Fetch, b: Fetch, stale: bool)
    ensures Times([a] + [b], stale)
         == (if a.StaleFetch? == stale then [a.at] else []) + (if b.StaleFetch? == stale then [b.at] else [])
  {
    TimesOfConcat([a], [b], stale);
    TimesOfOne(a, stale);
    TimesOfOne(b, stale);
  }

  /** The fetches of one call: at most one for either reason. */
  lemma CallShape(s: Settings, c: Cache, x: Call)
    ensures var l := KeyFor(s, c, x.kid, x.readings, x.first, x.second);
            && l.fetches in {[], [StaleFetch(x.readings.began)], [RotationFetch(x.readings.checked)],
                             [StaleFetch(x.readings.began)] + [RotationFetch(x.readings.checked)]}
  {
    assert [] + [RotationFetch(x.readings.checked)] == [RotationFetch(x.readings.checked)];
  }

  lemma CallTimes(s: Settings, c: Cache, x: Call)
    ensures var l := KeyFor(s, c, x.kid, x.readings, x.first, x.second);
            && Times(l.fetches, true) in {[], [x.readings.began]}
            && Times(l.fetches, false) in {[], [x.readings.checked]}
            && (Times(l.fetches, true) == [] <==> StaleFetch(x.readings.began) !in l.fetches)
            && (Times(l.fetches, false) == [] <==> RotationFetch(x.readings.checked) !in l.fetches)
  {
    CallShape(s, c, x);
    var a, b := StaleFetch(x.readings.began), RotationFetch(x.readings.checked);
    TimesOfOne(a, true);
    TimesOfOne(a, false);
    TimesOfOne(b, true);
    TimesOfOne(b, false);
    TimesOfTwo(a, b, true);
    TimesOfTwo(a, b, false);
    assert [a.at] + [] == [a.at] && [] + [b.at] == [b.at];
  }

  /** The second half of a call leaves the first throttle to its own time. */
  lemma RotatedThrottles(s: Settings, c: Cache, x: Call, fetches: seq<Fetch>, from: int)
    requires x.readings.Monotone(from) && Past(c, x.readings.loaded)
    requires RotationFetch(x.readings.checked) !in fetches
    ensures var l := Rotated(s, c, x.kid, x.readings, x.second, fetches);
            && Past(l.cache, x.readings.loaded2)
            && (StaleFetch(x.readings.began) in l.fetches <==> StaleFetch(x.readings.began) in fetches)
            && (c.attemptedAt.Some? ==> l.cache.attemptedAt.Some? && c.attemptedAt.value <= l.cache.attemptedAt.value)
            && (if RotationFetch(x.readings.checked) in l.fetches
                then Since(c.rotationCheckedAt, x.readings.checked, s.interval)
                     && l.cache.rotationCheckedAt == Some(x.readings.checked)
                else l.cache.rotationCheckedAt == c.rotationCheckedAt)
  {
  }

  /** What one call does to the two throttles. */
  lemma CallThrottles(s: Settings, c: Cache, x: Call, from: int)
    requires x.readings.Monotone(from) && Past(c, from)
    ensures var l := KeyFor(s, c, x.kid, x.readings, x.first, x.second);
            && Past(l.cache, x.readings.loaded2)
            && (StaleFetch(x.readings.began) in l.fetches ==>
                  Since(c.attemptedAt, x.readings.began, s.interval)
                  && l.cache.attemptedAt.Some? && x.readings.began <= l.cache.attemptedAt.value)
            && (StaleFetch(x.readings.began) !in l.fetches ==>
                  || c.attemptedAt.None?
                  || (l.cache.attemptedAt.Some? && c.attemptedAt.value <= l.cache.attemptedAt.value))
            && (RotationFetch(x.readings.checked) in l.fetches ==>
                  Since(c.rotationCheckedAt, x.readings.checked, s.interval)
                  && l.cache.rotationCheckedAt == Some(x.readings.checked))
            && (RotationFetch(x.readings.checked) !in l.fetches ==> l.cache.rotationCheckedAt == c.rotationCheckedAt)
  {
    if Since(c.loadedAt, x.readings.stale, s.ttl) && Since(c.attemptedAt, x.readings.attempt, s.interval) {
      var (renewed, error) := Refresh(c, x.first, x.readings.began, x.readings.loaded);
      if error.None? {
        RotatedThrottles(s, renewed, x, [StaleFetch(x.readings.began)], from);
      }
    } else {
      RotatedThrottles(s, c, x, [], from);
    }
  }

  /** One call: at most one fetch for either reason, each at its throttle's distance. */
  lemma OneCall(s: Settings, c: Cache, x: Call, from: int)
    requires x.readings.Monotone(from) && Past(c, from)
    ensures var l := KeyFor(s, c, x.kid, x.readings, x.first, x.second);
            var stale, rotated := Times(l.fetches, true), Times(l.fetches, false);
            && Past(l.cache, x.readings.loaded2)
            && |stale| <= 1 && |rotated| <= 1
            && (|stale| == 1 ==> from <= stale[0] <= x.readings.loaded2 && Since(c.attemptedAt, stale[0], s.interval)
                                 && l.cache.attemptedAt.Some? && stale[0] <= l.cache.attemptedAt.value)
            && (|stale| == 0 ==> c.attemptedAt.None? || (l.cache.attemptedAt.Some? &&
                                                         c.attemptedAt.value <= l.cache.attemptedAt.value))
            && (|rotated| == 1 ==> from <= rotated[0] <= x.readings.loaded2
                                   && Since(c.rotationCheckedAt, rotated[0], s.interval)
                                   && l.cache.rotationCheckedAt == Some(rotated[0]))
            && (|rotated| == 0 ==> l.cache.rotationCheckedAt == c.rotationCheckedAt)
  {
    CallTimes(s, c, x);
    CallThrottles(s, c, x, from);
  }

  /** A later last time only makes the throttle stricter. */
  lemma SpacedFromEarlier(times: seq<int>, last: Option<int>, earlier: Option<int>, m: int, from: int, to: int)
    requires Spaced(times, last, m, from, to)
    requires earlier.None? || (last.Some? && earlier.value <= last.value)
    ensures Spaced(times, earlier, m, from, to)
  {
  }

  lemma {:induction false} EndIsLater(calls: seq<Call>, from: int)
    requires Ordered(calls, from)
    ensures from <= End(calls, from)
    decreases |calls|
  {
    if calls != [] {
      EndIsLater(calls[1..], calls[0].readings.loaded2);
    }
  }

  lemma {:induction false} RunIsSpaced(s: Settings, c: Cache, calls: seq<Call>, from: int)
    requires Ordered(calls, from) && Past(c, from)
    ensures var fetches := Run(s, c, calls).1;
            && Spaced(Times(fetches, true), c.attemptedAt, s.interval, from, End(calls, from))
            && Spaced(Times(fetches, false), c.rotationCheckedAt, s.interval, from, End(calls, from))
    decreases |calls|
  {
    if calls != [] {
      var x := calls[0];
      var one := KeyFor(s, c, x.kid, x.readings, x.first, x.second);
      var next := x.readings.loaded2;
      var rest := Run(s, one.cache, calls[1..]).1;
      OneCall(s, c, x, from);
      RunIsSpaced(s, one.cache, calls[1..], next);
      EndIsLater(calls[1..], next);
      TimesOfConcat(one.fetches, rest, true);
      TimesOfConcat(one.fetches, rest, false);
      var to := End(calls, from);
      SpacedJoin(Times(one.fetches, true), Times(rest, true), c.attemptedAt, one.cache.attemptedAt,
                 s.interval, from, next, to);
      SpacedJoin(Times(one.fetches, false), Times(rest, false), c.rotationCheckedAt, one.cache.rotationCheckedAt,
                 s.interval, from, next, to);
    }
  }

  /** The times of one call, at most one, in front of those of the later calls. */
  lemma SpacedJoin(first: seq<int>, rest: seq<int>, before: Option<int>, after: Option<int>, m: int,
                   from: int, next: int, to: int)
    requires from <= next <= to && Spaced(rest, after, m, next, to) && |first| <= 1
    requires |first| == 1 ==>
               from <= first[0] <= next && Since(before, first[0], m) && after.Some? && first[0] <= after.value
    requires |first| == 0 ==> before.None? || (after.Some? && before.value <= after.value)
    ensures Spaced(first + rest, before, m, from, to)
  {
    if |first| == 1 {
      SpacedFromEarlier(rest, after, Some(first[0]), m, next, to);
      SpacedPrepend(first[0], rest, before, m, from, to, next);
      assert first == [first[0]];
    } else {
      SpacedFromEarlier(rest, after, before, m, next, to);
      assert first + rest == rest;
    }
  }

  /** However many calls ask for whatever key ids, and however the fetches turn
      out, a span of time sees at most 2 * (span / interval + 1) fetches. */
  lemma FetchRateIsBounded(s: Settings, c: Cache, calls: seq<Call>, from: int)
    requires s.interval > 0 && Ordered(calls, from) && Past(c, from)
    ensures |Run(s, c, calls).1| <= 2 * ((End(calls, from) - from) / s.interval + 1)
  {
    var fetches, to := Run(s, c, calls).1, End(calls, from);
    var most := (to - from) / s.interval + 1;
    assert |Times(fetches, true)| <= most && |Times(fetches, false)| <= most by {
      RunIsSpaced(s, c, calls, from);
      EndIsLater(calls, from);
      SpacedBound(Times(fetches, true), c.attemptedAt, s.interval, from, to);
      SpacedBound(Times(fetches, false), c.rotationCheckedAt, s.interval, from, to);
    }
    TimesCount(fetches);
  }

  /** A call of no duration during an outage. */
  function Probe(kid: string, at: int): Call { Call(kid, Readings(at, at, at, at, at, at, at, at), Broken, Broken) }

  /** Two calls at every multiple of the interval. */
  function Probes(s: Settings, kid: string, at: int, n: nat): seq<Call>
    decreases n
  {
    [Probe(kid, at), Probe(kid, at)] + if n == 0 then [] else Probes(s, kid, at + s.interval, n - 1)
  }

  /** A cache that never had keys and last tried both ways at `last`. */
  function Starved(last: Option<int>): Cache { Cache(map[], None, last, last) }

  lemma {:induction false} ProbesAreOrdered(s: Settings, kid: string, at: int, n: nat)
    requires s.interval > 0
    ensures var calls := Probes(s, kid, at, n); Ordered(calls, at) && End(calls, at) == at + n * s.interval
    decreases n
  {
    var x, calls := Probe(kid, at), Probes(s, kid, at, n);
    var rest := if n == 0 then [] else Probes(s, kid, at + s.interval, n - 1);
    assert calls[0] == x && calls[1..] == [x] + rest && ([x] + rest)[1..] == rest;
    assert End(calls, at) == End([x] + rest, at) == End(rest, at);
    if n == 0 {
      assert n * s.interval == 0;
    } else {
      ProbesAreOrdered(s, kid, at + s.interval, n - 1);
      assert (n - 1) * s.interval + s.interval == n * s.interval;
      LaterStart(rest, at, at + s.interval);
    }
  }

  /** The first of two calls refreshes, the second looks for a rotated key. */
  lemma {:induction false} ProbesFetch(s: Settings, kid: string, last: Option<int>, at: int, n: nat)
    requires s.interval > 0 && Since(last, at, s.interval)
    ensures |Run(s, Starved(last), Probes(s, kid, at, n)).1| == 2 * (n + 1)
    decreases n
  {
    var rest := if n == 0 then [] else Probes(s, kid, at + s.interval, n - 1);
    TwoRuns(s, kid, last, at, rest);
    if n > 0 {
      ProbesFetch(s, kid, Some(at), at + s.interval, n - 1);
    }
  }

  lemma ProbeRenews(s: Settings, kid: string, last: Option<int>, at: int)
    requires s.interval > 0 && Since(last, at, s.interval)
    ensures KeyFor(s, Starved(last), kid, Probe(kid, at).readings, Broken, Broken)
         == Lookup(Cache(map[], None, Some(at), last), Failure(KeysUnavailable), [StaleFetch(at)])
  {
  }

  lemma ProbeRotates(s: Settings, kid: string, last: Option<int>, at: int)
    requires s.interval > 0 && Since(last, at, s.interval)
    ensures KeyFor(s, Cache(map[], None, Some(at), last), kid, Probe(kid, at).readings, Broken, Broken)
         == Lookup(Starved(Some(at)), Failure(KeysUnavailable), [] + [RotationFetch(at)])
  {
  }

  lemma TwoRuns(s: Settings, kid: string, last: Option<int>, at: int, rest: seq<Call>)
    requires s.interval > 0 && Since(last, at, s.interval)
    ensures |Run(s, Starved(last), [Probe(kid, at), Probe(kid, at)] + rest).1|
         == 2 + |Run(s, Starved(Some(at)), rest).1|
  {
    var x := Probe(kid, at);
    var middle := Cache(map[], None, Some(at), last);
    ProbeRenews(s, kid, last, at);
    ProbeRotates(s, kid, last, at);
    var calls := [x, x] + rest;
    assert calls[0] == x && calls[1..] == [x] + rest && ([x] + rest)[1..] == rest;
    assert Run(s, middle, [x] + rest).1 == [RotationFetch(at)] + Run(s, Starved(Some(at)), rest).1;
  }

  lemma LaterStart(calls: seq<Call>, from: int, later: int)
    requires from <= later && Ordered(calls, later) && calls != []
    ensures Ordered(calls, from) && End(calls, from) == End(calls, later)
  {
  }

  /** The bound is met for every span of whole intervals. */
  lemma FetchRateIsTight(s: Settings, kid: string, n: nat)
    requires s.interval > 0
    ensures exists calls :: Ordered(calls, 0) && End(calls, 0) == n * s.interval &&
                            |Run(s, EMPTY_CACHE, calls).1| == 2 * (n * s.interval / s.interval + 1)
  {
    ProbesAreOrdered(s, kid, 0, n);
    ProbesFetch(s, kid, None, 0, n);
    WholeIntervals(n, s.interval);
    var calls := Probes(s, kid, 0, n);
    assert Ordered(calls, 0) && End(calls, 0) == n * s.interval;
  }

  lemma WholeIntervals(n: int, m: int)
    requires m > 0
    ensures n * m / m == n
  {
    var q := n * m / m;
    assert n * m == q * m + n * m % m;
    assert (n - q) * m == n * m - q * m;
    if q < n {
      ProductGrows(1, n - q, m);
    } else if n < q {
      ProductGrows(1, q - n, m);
    }
  }

  /** Once there are keys there always are, and a fetch that fails or brings none
      changes neither the keys nor how long they are trusted. */
  lemma {:induction false} CacheNeverEmpties(s: Settings, c: Cache, calls: seq<Call>)
    requires c.keys != map[]
    ensures Run(s, c, calls).0.keys != map[]
    ensures (forall x :: x in calls ==> !Brings(x.first) && !Brings(x.second)) ==>
              Run(s, c, calls).0.keys == c.keys && Run(s, c, calls).0.loadedAt == c.loadedAt
    decreases |calls|
  {
    if calls != [] {
      var x := calls[0];
      CacheNeverEmpties(s, KeyFor(s, c, x.kid, x.readings, x.first, x.second).cache, calls[1..]);
    }
  }

  /** This call fetches something that makes the cache raise. */
  predicate FetchesOdd(l: Lookup, x: Call) {
    || (StaleFetch(x.readings.began) in l.fetches && x.first.Odd?)
    || (RotationFetch(x.readings.checked) in l.fetches && x.second.Odd?)
  }

  /** While there are keys a failing fetch shows in one way only: an exception that
      the cache does not know reaches the caller, even of a key that is there. */
  lemma OutagesDoNotShow(s: Settings, c: Cache, x: Call)
    requires c.keys != map[]
    ensures var l := KeyFor(s, c, x.kid, x.readings, x.first, x.second);
            && l.result != Failure(KeysUnavailable)
            && (l.result == Failure(Uncaught) <==> FetchesOdd(l, x))
            && (x.kid in c.keys && !Brings(x.first) && !FetchesOdd(l, x) ==> l.result == Success(c.keys[x.kid]))
  {
    var refreshes := Since(c.loadedAt, x.readings.stale, s.ttl) && Since(c.attemptedAt, x.readings.attempt, s.interval);
    if refreshes && Refresh(c, x.first, x.readings.began, x.readings.loaded).1.None? {
      RotatedFetches(s, Refresh(c, x.first, x.readings.began, x.readings.loaded).0, x, [StaleFetch(x.readings.began)]);
    } else if !refreshes {
      RotatedFetches(s, c, x, []);
    }
  }

  lemma RotatedFetches(s: Settings, c: Cache, x: Call, fetches: seq<Fetch>)
    requires c.keys != map[] && RotationFetch(x.readings.checked) !in fetches
    ensures var l := Rotated(s, c, x.kid, x.readings, x.second, fetches);
            && (StaleFetch(x.readings.began) in l.fetches <==> StaleFetch(x.readings.began) in fetches)
            && l.result != Failure(KeysUnavailable)
            && (l.result == Failure(Uncaught) <==> RotationFetch(x.readings.checked) in l.fetches && x.second.Odd?)
            && (x.kid in c.keys ==> l.result == Success(c.keys[x.kid]) && l.fetches == fetches)
  {
  }

  /** Such an answer takes a key away that the cache has. */
  lemma OddAnswerShows(s: Settings, kid: string, key: PublicKey, at: int)
    requires s.ttl >= 0
    ensures var c := Cache(map[kid := key], Some(at), None, None);
            var r := at + s.ttl;
            KeyFor(s, c, kid, Readings(r, r, r, r, r, r, r, r), Odd, Odd).result == Failure(Uncaught)
  {
  }
}
