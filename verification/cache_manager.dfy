/**
 * `CacheManager` (src/utils/cacheManager.ts) and the process-wide state it
 * sits in. The manager owns the meals map, which `useMeals` uses through
 * `getMealsCache()`, and a hydration map that no hook uses: `useHydration`
 * keeps its own module-level map, so `clearAll` does not reach it.
 */
module CacheManager {
  import opened Records
  import opened DayCache

  datatype Manager = Manager(meals: Cache<Meal>, hydration: Cache<HydrationLog>)

  /** `getStats`: the keys of both maps and their sizes. */
  datatype Stats = Stats(mealsKeys: set<DayKey>, hydrationKeys: set<DayKey>, mealsCacheSize: nat, hydrationCacheSize: nat)

  /** `clearAll`: both maps the manager owns end up empty. */
  function ClearAll(m: Manager): (r: Manager)
    ensures forall k :: k !in r.meals && k !in r.hydration
  {
    Manager(map[], map[])
  }

  /** `getStats`: each size is the number of keys listed for that map. */
  function GetStats(m: Manager): (r: Stats)
    ensures r.mealsCacheSize == |r.mealsKeys| && r.hydrationCacheSize == |r.hydrationKeys|
    ensures forall k :: k in r.mealsKeys <==> k in m.meals
    ensures forall k :: k in r.hydrationKeys <==> k in m.hydration
  {
    Stats(m.meals.Keys, m.hydration.Keys, |m.meals|, |m.hydration|)
  }

  /**
   * `getMealsCache`: the manager's own map, not a copy, so what it returns
   * holds exactly the days `getStats` lists, and as many of them.
   */
  function GetMealsCache(m: Manager): (r: Cache<Meal>)
    ensures r.Keys == GetStats(m).mealsKeys && |r| == GetStats(m).mealsCacheSize
  {
    m.meals
  }

  /** `getHydrationCache`: likewise for the manager's hydration map. */
  function GetHydrationCache(m: Manager): (r: Cache<HydrationLog>)
    ensures r.Keys == GetStats(m).hydrationKeys && |r| == GetStats(m).hydrationCacheSize
  {
    m.hydration
  }

  /**
   * The process-wide state: the manager (whose meals map is the meals
   * hook's cache), the meals bus, and the hydration hook's own store.
   */
  datatype App = App(manager: Manager, mealsBus: Bus, water: Store<HydrationLog>)

  /** The meals hook's store, read through the manager. */
  function MealsStore(a: App): (s: Store<Meal>)
    ensures s.cache == GetMealsCache(a.manager)
  {
    Store(a.manager.meals, a.mealsBus)
  }

  /** A meals-hook operation's new store, written back into the shared state. */
  function WithMealsStore(a: App, s: Store<Meal>): (r: App)
    ensures MealsStore(r) == s
    ensures r.water == a.water && r.manager.hydration == a.manager.hydration
  {
    App(a.manager.(meals := s.cache), s.bus, a.water)
  }

  /** A write made through the meals hook is what `getMealsCache` returns next. */
  lemma MealsWritesVisibleThroughManager(a: App, s: Store<Meal>, k: DayKey)
    requires k in s.cache
    ensures k in GetMealsCache(WithMealsStore(a, s).manager)
    ensures GetMealsCache(WithMealsStore(a, s).manager)[k] == s.cache[k]
    ensures GetStats(WithMealsStore(a, s).manager).mealsCacheSize == |s.cache|
  {
  }

  /**
   * `cacheManager.clearAll()` applied to the whole state: the meals cache
   * and the manager's own hydration map are emptied, but no listener is
   * notified and the water-log cache of the hydration hook is untouched.
   */
  function ClearAllCaches(a: App): (r: App)
    ensures forall k :: k !in MealsStore(r).cache && k !in GetHydrationCache(r.manager)
    ensures r.mealsBus == a.mealsBus
    ensures r.water == a.water
  {
    App(ClearAll(a.manager), a.mealsBus, a.water)
  }
}
