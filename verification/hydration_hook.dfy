/**
 * `useHydration` (src/hooks/useHydration.ts): the same read-through cache
 * as the meals hook, with its own module-level map and its own version
 * counter, a five-day prefetch guarded by the per-instance `hasPrefetched`
 * ref, and the water total of the selected day.
 */
module HydrationHook {
  import opened Common
  import opened Records
  import opened Sums
  import opened DayCache

  /** The prefetch window: today and the four days before it. */
  const WindowDays: nat := 5

  /** `HYDRATION_QUICK_ADD` in src/constants/defaults.ts. */
  const SmallCupMl: int := 250
  const LargeCupMl: int := 500

  datatype WaterView = WaterView(totalWater: int, logs: seq<HydrationLog>, loading: bool, error: Option<string>)

  /** One hook instance: its React state and its `hasPrefetched` ref. */
  datatype Instance = Instance(view: WaterView, hasPrefetched: bool)

  function AmountMl(l: HydrationLog): int { l.amountMl }

  /** `logs.reduce((sum, log) => sum + log.amount_ml, 0)`. */
  function TotalMl(logs: seq<HydrationLog>): (r: int)
    ensures r == SumInt(logs, AmountMl)
  {
    FoldIntIsSum(0, logs, AmountMl);
    FoldInt(0, logs, AmountMl)
  }

  datatype WaterFetch = WaterFetch(cache: Cache<HydrationLog>, view: WaterView, queried: bool)

  /**
   * `fetchHydration` for the day `key`: like `fetchMeals`, and on both the
   * hit and the miss path the total is the sum of the shown logs' amounts.
   */
  function FetchHydration(c: Cache<HydrationLog>, v: WaterView, userId: Option<UserId>, key: DayKey,
                          outcome: FetchOutcome<HydrationLog>)
    : (r: WaterFetch)
    ensures userId.None? ==> r.cache == c && r.view == v.(loading := false) && !r.queried
    ensures userId.Some? ==> !r.view.loading && r.view.error.None?
    ensures userId.Some? ==> r.view.totalWater == SumInt(r.view.logs, AmountMl)
    ensures userId.Some? && key in c ==> !r.queried && r.cache == c && r.view.logs == c[key]
    ensures userId.Some? && key !in c ==> r.queried && (key in r.cache <==> outcome.Success?)
    ensures userId.Some? && key !in c && outcome.Success? ==>
      r.view.logs == r.cache[key] == outcome.value.GetOr([])
    ensures userId.Some? && key !in c && outcome.Failure? ==> r.cache == c && r.view.logs == []
  {
    if userId.None? then WaterFetch(c, v.(loading := false), false)
    else if key in c then
      var logs := c[key];
      WaterFetch(c, WaterView(TotalMl(logs), logs, false, None), false)
    else
      var f := FetchForDate(c, key, outcome);
      WaterFetch(f.cache, WaterView(TotalMl(f.records), f.records, false, None), true)
  }

  /**
   * `prefetchDays`: skipped without a user or when this instance already
   * prefetched; otherwise the flag is set (whatever the fetches return) and
   * the uncached days of the window are fetched. It never notifies.
   */
  method PrefetchDays(s: Store<HydrationLog>, hasPrefetched: bool, userId: Option<UserId>, today: DayKey,
                      fetch: DayKey -> FetchOutcome<HydrationLog>)
    returns (s': Store<HydrationLog>, hasPrefetched': bool, requested: seq<DayKey>)
    ensures userId.None? || hasPrefetched ==> s' == s && hasPrefetched' == hasPrefetched && requested == []
    ensures userId.Some? ==> hasPrefetched'
    ensures userId.Some? && !hasPrefetched ==> requested == Missing(s.cache, WindowKeys(today, WindowDays))
    ensures userId.Some? && !hasPrefetched ==>
      forall k :: k in requested <==> today - WindowDays < k <= today && k !in s.cache
    ensures s'.bus == s.bus
    ensures forall k :: k in s.cache ==> k in s'.cache && s'.cache[k] == s.cache[k]
    ensures forall k :: k in s'.cache ==> k in s.cache || k in requested
    ensures forall k :: k in requested ==> (k in s'.cache <==> fetch(k).Success?)
    ensures forall k :: k in requested && fetch(k).Success? ==> s'.cache[k] == fetch(k).value.GetOr([])
  {
    if userId.None? || hasPrefetched {
      return s, hasPrefetched, [];
    }
    hasPrefetched' := true;
    var c';
    c', requested := FetchMissing(s.cache, WindowKeys(today, WindowDays), fetch);
    forall k ensures k in requested <==> today - WindowDays < k <= today && k !in s.cache {
      WindowMembership(today, WindowDays, k);
    }
    s' := Store(c', s.bus);
  }

  datatype Cleared = Cleared(store: Store<HydrationLog>, instance: Instance)

  /**
   * `clearCache`: empty the water-log map, reset the calling instance's
   * prefetch flag, and bump the hydration version (not the meals one).
   */
  function ClearCache(s: Store<HydrationLog>, inst: Instance): (r: Cleared)
    ensures forall k :: k !in r.store.cache
    ensures !r.instance.hasPrefetched && r.instance.view == inst.view
    ensures r.store.bus.version == s.bus.version + 1
    ensures r.store.bus == Notify(s.bus)
  {
    Cleared(Invalidate(s), inst.(hasPrefetched := false))
  }

  datatype WaterInsert = WaterInsert(userId: UserId, amountMl: int)

  datatype WaterMutation<C> = WaterMutation(store: Store<HydrationLog>, instance: Instance, call: Option<C>, error: Option<string>)

  /** After a successful write: clear, then `await fetchHydration()` for the selected day. */
  function ClearAndRefetch(s: Store<HydrationLog>, inst: Instance, userId: Option<UserId>, selected: DayKey,
                           refetch: FetchOutcome<HydrationLog>)
    : (r: Cleared)
    ensures !r.instance.hasPrefetched
    ensures r.store.bus == Notify(s.bus)
    ensures forall k :: k in r.store.cache ==> k == selected && userId.Some?
    ensures userId.Some? ==> (selected in r.store.cache <==> refetch.Success?)
    ensures userId.Some? ==> r.instance.view.totalWater == SumInt(r.instance.view.logs, AmountMl)
    ensures userId.Some? ==> r.instance.view.logs == (if refetch.Success? then refetch.value.GetOr([]) else [])
  {
    var cleared := ClearCache(s, inst);
    var f := FetchHydration(cleared.store.cache, inst.view, userId, selected, refetch);
    Cleared(Store(f.cache, cleared.store.bus), cleared.instance.(view := f.view))
  }

  /**
   * `addWater`: without a user nothing is inserted and the error is
   * `'No user ID'`; after a successful insert the cache is cleared and the
   * selected day refetched; after a failed insert nothing changes.
   */
  function AddWater(s: Store<HydrationLog>, inst: Instance, userId: Option<UserId>, amount: int, selected: DayKey,
                    insert: Outcome<()>, refetch: FetchOutcome<HydrationLog>)
    : (r: WaterMutation<WaterInsert>)
    ensures userId.None? ==> r.store == s && r.instance == inst && r.call.None? && r.error == Some("No user ID")
    ensures userId.Some? ==> r.call == Some(WaterInsert(userId.value, amount))
    ensures userId.Some? && insert.Success? ==>
      && r.error.None?
      && Cleared(r.store, r.instance) == ClearAndRefetch(s, inst, userId, selected, refetch)
    ensures userId.Some? && insert.Failure? ==>
      r.store == s && r.instance == inst && r.error == Some(insert.message)
  {
    if userId.None? then WaterMutation(s, inst, None, Some("No user ID"))
    else
      var call := Some(WaterInsert(userId.value, amount));
      match insert
      case Success(_) =>
        var c := ClearAndRefetch(s, inst, userId, selected, refetch);
        WaterMutation(c.store, c.instance, call, None)
      case Failure(msg) => WaterMutation(s, inst, call, Some(msg))
  }

  /** `deleteWaterLog`: no user check; clear and refetch only after the delete succeeded. */
  function DeleteWaterLog(s: Store<HydrationLog>, inst: Instance, userId: Option<UserId>, logId: string, selected: DayKey,
                          outcome: Outcome<()>, refetch: FetchOutcome<HydrationLog>)
    : (r: WaterMutation<string>)
    ensures r.call == Some(logId)
    ensures outcome.Success? ==>
      && r.error.None?
      && Cleared(r.store, r.instance) == ClearAndRefetch(s, inst, userId, selected, refetch)
    ensures outcome.Failure? ==> r.store == s && r.instance == inst && r.error == Some(outcome.message)
  {
    match outcome
    case Success(_) =>
      var c := ClearAndRefetch(s, inst, userId, selected, refetch);
      WaterMutation(c.store, c.instance, Some(logId), None)
    case Failure(msg) => WaterMutation(s, inst, Some(logId), Some(msg))
  }

  /** `addSmallCup`: `addWater` with 250 ml. */
  function AddSmallCup(s: Store<HydrationLog>, inst: Instance, userId: Option<UserId>, selected: DayKey,
                       insert: Outcome<()>, refetch: FetchOutcome<HydrationLog>)
    : (r: WaterMutation<WaterInsert>)
    ensures userId.Some? ==> r.call == Some(WaterInsert(userId.value, 250))
    ensures userId.None? ==> r.call.None? && r.error == Some("No user ID")
  {
    AddWater(s, inst, userId, SmallCupMl, selected, insert, refetch)
  }

  /** `addLargeCup`: `addWater` with 500 ml. */
  function AddLargeCup(s: Store<HydrationLog>, inst: Instance, userId: Option<UserId>, selected: DayKey,
                       insert: Outcome<()>, refetch: FetchOutcome<HydrationLog>)
    : (r: WaterMutation<WaterInsert>)
    ensures userId.Some? ==> r.call == Some(WaterInsert(userId.value, 500))
    ensures userId.None? ==> r.call.None? && r.error == Some("No user ID")
  {
    AddWater(s, inst, userId, LargeCupMl, selected, insert, refetch)
  }

  /** The realtime handler: `clearCache()` then `fetchHydration()`; no prefetch is issued here. */
  function OnRealtimeEvent(s: Store<HydrationLog>, inst: Instance, userId: UserId, selected: DayKey,
                           refetch: FetchOutcome<HydrationLog>)
    : (r: Cleared)
    ensures !r.instance.hasPrefetched
    ensures r.store.bus.version == s.bus.version + 1
    ensures forall k :: k in r.store.cache <==> k == selected && refetch.Success?
    ensures r.instance.view.totalWater == SumInt(r.instance.view.logs, AmountMl)
  {
    ClearAndRefetch(s, inst, Some(userId), selected, refetch)
  }

  /** The water total of two lists of logs adds up. */
  lemma TotalMlAppend(a: seq<HydrationLog>, b: seq<HydrationLog>)
    ensures TotalMl(a + b) == TotalMl(a) + TotalMl(b)
  {
    SumIntAppend(a, b, AmountMl);
  }
}
