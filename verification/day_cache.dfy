/**
 * The date-keyed record cache shared by the meals and hydration hooks
 * (`src/hooks/useMeals.ts`, `src/hooks/useHydration.ts`): a map from day to
 * that day's records, where an absent key means "not fetched yet" and an
 * empty list means "fetched, nothing logged"; plus the invalidation bus, a
 * version counter and the cache versions the mounted hook instances observed.
 */
module DayCache {
  import opened Common
  import opened Records

  type Cache<R> = map<DayKey, seq<R>>

  /** A mounted hook instance listening on the bus. */
  type ListenerId = nat

  /** What the backend answers for one day's select: the rows (possibly `null`) or an error. */
  type FetchOutcome<R> = Outcome<Option<seq<R>>>

  /**
   * The invalidation bus: the module-level version and, per registered
   * listener, the `cacheVersion` state that listener last stored.
   */
  datatype Bus = Bus(version: nat, observed: map<ListenerId, nat>)

  /** No listener has seen a version the bus has not reached. */
  predicate BusWf(b: Bus) {
    forall id :: id in b.observed ==> b.observed[id] <= b.version
  }

  /** A hook instance mounts: it starts from the current version and registers its listener. */
  function Subscribe(b: Bus, id: ListenerId): (r: Bus)
    ensures r.version == b.version
    ensures r.observed.Keys == b.observed.Keys + {id}
    ensures r.observed[id] == b.version
    ensures forall other :: other in b.observed && other != id ==> r.observed[other] == b.observed[other]
    ensures BusWf(b) ==> BusWf(r)
  {
    b.(observed := b.observed[id := b.version])
  }

  /** A hook instance unmounts: its listener is removed. */
  function Unsubscribe(b: Bus, id: ListenerId): (r: Bus)
    ensures r.version == b.version
    ensures r.observed.Keys == b.observed.Keys - {id}
    ensures forall other :: other in r.observed ==> r.observed[other] == b.observed[other]
    ensures BusWf(b) ==> BusWf(r)
  {
    b.(observed := b.observed - {id})
  }

  /**
   * `notifyCacheUpdate`: bump the version and call every listener, each of
   * which stores the new version in its own state.
   */
  function Notify(b: Bus): (r: Bus)
    ensures r.version == b.version + 1
    ensures r.observed.Keys == b.observed.Keys
    ensures forall id :: id in r.observed ==> r.observed[id] == r.version
    ensures BusWf(b) ==> BusWf(r) && forall id :: id in b.observed ==> r.observed[id] > b.observed[id]
  {
    Bus(b.version + 1, map id | id in b.observed :: b.version + 1)
  }

  /** The module-level state of one hook family: its cache and its bus. */
  datatype Store<R> = Store(cache: Cache<R>, bus: Bus)

  /** `mealsCache.clear()` followed by `notifyCacheUpdate()`. */
  function Invalidate<R>(s: Store<R>): (r: Store<R>)
    ensures forall k :: k !in r.cache
    ensures r.bus.version == s.bus.version + 1
    ensures r.bus == Notify(s.bus)
  {
    Store(map[], Notify(s.bus))
  }

  /** The new cache and the list the per-day fetch returns. */
  datatype Fetched<R> = Fetched(cache: Cache<R>, records: seq<R>)

  /**
   * `fetchMealsForDate` / `fetchWaterLogsForDate`: on success the day is
   * overwritten with the rows (`null` read as `[]`); on error the cache is
   * untouched and the caller gets `[]`, never an exception.
   */
  function FetchForDate<R>(c: Cache<R>, key: DayKey, outcome: FetchOutcome<R>): (r: Fetched<R>)
    ensures outcome.Success? ==> key in r.cache && r.cache[key] == r.records
    ensures outcome.Success? ==> r.records == outcome.value.GetOr([])
    ensures outcome.Success? ==> forall k :: k != key ==> (k in r.cache <==> k in c)
    ensures outcome.Success? ==> forall k :: k != key && k in c ==> r.cache[k] == c[k]
    ensures outcome.Failure? ==> r.cache == c && r.records == []
  {
    match outcome
    case Success(data) =>
      var rows := data.GetOr([]);
      Fetched(c[key := rows], rows)
    case Failure(_) => Fetched(c, [])
  }

  /** Today and the `n - 1` days before it, newest first. */
  function WindowKeys(today: DayKey, n: nat): (r: seq<DayKey>)
    ensures |r| == n
    ensures forall i :: 0 <= i < n ==> r[i] == today - i
  {
    seq(n, i => today - i)
  }

  /** The window holds exactly the days in `(today - n, today]`. */
  lemma WindowMembership(today: DayKey, n: nat, k: DayKey)
    ensures k in WindowKeys(today, n) <==> today - n < k <= today
  {
    if today - n < k <= today {
      assert WindowKeys(today, n)[today - k] == k;
    }
  }

  /** The keys of `keys` that the cache lacks, in order. */
  function Missing<R>(c: Cache<R>, keys: seq<DayKey>): (r: seq<DayKey>)
    ensures |r| <= |keys|
  {
    if keys == [] then []
    else (if keys[0] in c then [] else [keys[0]]) + Missing(c, keys[1..])
  }

  /** A key is selected exactly when it is one of `keys` and not cached. */
  lemma {:induction false} MissingMembers<R>(c: Cache<R>, keys: seq<DayKey>)
    ensures forall k :: k in Missing(c, keys) <==> k in keys && k !in c
  {
    if keys != [] {
      MissingMembers(c, keys[1..]);
      assert keys == [keys[0]] + keys[1..];
    }
  }

  /**
   * The synchronous half of `prefetchDays`: against the cache as it is,
   * collect the window keys that are not cached. The source checks every
   * `has` before it awaits any fetch.
   */
  method SelectMissing<R>(c: Cache<R>, keys: seq<DayKey>) returns (requested: seq<DayKey>)
    ensures requested == Missing(c, keys)
  {
    requested := [];
    var i := 0;
    assert keys[0..] == keys;
    while i < |keys|
      invariant 0 <= i <= |keys|
      invariant requested + Missing(c, keys[i..]) == Missing(c, keys)
    {
      var k := keys[i];
      assert keys[i..][0] == k && keys[i..][1..] == keys[i + 1..];
      ghost var rest := Missing(c, keys[i + 1..]);
      if k !in c {
        assert Missing(c, keys[i..]) == [k] + rest;
        assert requested + ([k] + rest) == (requested + [k]) + rest;
        requested := requested + [k];
      } else {
        assert Missing(c, keys[i..]) == rest;
      }
      i := i + 1;
    }
    assert keys[i..] == [];
  }

  /**
   * The awaited half of `prefetchDays`: run the per-day fetches. Keys
   * already cached are not changed; a requested key ends up cached exactly
   * when its fetch succeeded; no other key appears.
   */
  method ApplyFetches<R>(c: Cache<R>, requested: seq<DayKey>, fetch: DayKey -> FetchOutcome<R>)
    returns (c': Cache<R>)
    requires forall k :: k in requested ==> k !in c
    ensures forall k :: k in c ==> k in c' && c'[k] == c[k]
    ensures forall k :: k in c' ==> k in c || k in requested
    ensures forall k :: k in requested ==> (k in c' <==> fetch(k).Success?)
    ensures forall k :: k in requested && fetch(k).Success? ==> c'[k] == fetch(k).value.GetOr([])
  {
    c' := c;
    ghost var done: set<DayKey> := {};
    var j := 0;
    while j < |requested|
      invariant 0 <= j <= |requested|
      invariant forall t :: 0 <= t < j ==> requested[t] in done
      invariant forall k :: k in done ==> k in requested
      invariant forall k :: k in c ==> k in c' && c'[k] == c[k]
      invariant forall k :: k in c' ==> k in c || k in done
      invariant forall k :: k in done ==> (k in c' <==> fetch(k).Success?)
      invariant forall k :: k in done && fetch(k).Success? ==> c'[k] == fetch(k).value.GetOr([])
    {
      var key := requested[j];
      var f := FetchForDate(c', key, fetch(key));
      c' := f.cache;
      done := done + {key};
      j := j + 1;
    }
  }

  /** The whole of `prefetchDays`' fetching: select the missing keys, then fetch them. */
  method FetchMissing<R>(c: Cache<R>, keys: seq<DayKey>, fetch: DayKey -> FetchOutcome<R>)
    returns (c': Cache<R>, requested: seq<DayKey>)
    ensures requested == Missing(c, keys)
    ensures forall k :: k in requested <==> k in keys && k !in c
    ensures forall k :: k in c ==> k in c' && c'[k] == c[k]
    ensures forall k :: k in c' ==> k in c || k in requested
    ensures forall k :: k in requested ==> (k in c' <==> fetch(k).Success?)
    ensures forall k :: k in requested && fetch(k).Success? ==> c'[k] == fetch(k).value.GetOr([])
  {
    requested := SelectMissing(c, keys);
    MissingMembers(c, keys);
    c' := ApplyFetches(c, requested, fetch);
  }
}
