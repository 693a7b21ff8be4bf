/**
 * `useMeals` (src/hooks/useMeals.ts): read-through fetch of one day, the
 * seven-day prefetch, invalidation after mutations and realtime events, and
 * the daily and weekly aggregates. The module-level `mealsCache` and
 * `globalCacheVersion`/`cacheListeners` are the `Store<Meal>` threaded
 * through every operation.
 */
module MealsHook {
  import opened Common
  import opened Records
  import opened Sums
  import opened DayCache

  /** The prefetch window: today and the six days before it. */
  const WindowDays: nat := 7

  /** One hook instance's React state. */
  datatype MealsView = MealsView(meals: seq<Meal>, loading: bool, error: Option<string>)

  /** After `fetchMeals`: the cache, the instance's state, and whether the backend was queried. */
  datatype MealsFetch = MealsFetch(cache: Cache<Meal>, view: MealsView, queried: bool)

  /**
   * `fetchMeals` for the day `key`. Without a user only `loading` drops.
   * A cache hit is served without a query. A miss queries the backend;
   * since the per-day fetch swallows errors, a failed query shows an empty
   * list and `error` stays null.
   */
  function FetchMeals(c: Cache<Meal>, v: MealsView, userId: Option<UserId>, key: DayKey, outcome: FetchOutcome<Meal>)
    : (r: MealsFetch)
    ensures userId.None? ==> r.cache == c && r.view == v.(loading := false) && !r.queried
    ensures userId.Some? ==> !r.view.loading && r.view.error.None?
    ensures userId.Some? && key in c ==> !r.queried && r.cache == c && r.view.meals == c[key]
    ensures userId.Some? && key !in c ==> r.queried && (key in r.cache <==> outcome.Success?)
    ensures userId.Some? && key !in c && outcome.Success? ==>
      r.view.meals == r.cache[key] == outcome.value.GetOr([])
    ensures userId.Some? && key !in c && outcome.Failure? ==> r.cache == c && r.view.meals == []
  {
    if userId.None? then MealsFetch(c, v.(loading := false), false)
    else if key in c then MealsFetch(c, MealsView(c[key], false, None), false)
    else
      var f := FetchForDate(c, key, outcome);
      MealsFetch(f.cache, MealsView(f.records, false, None), true)
  }

  /**
   * `prefetchDays`: fetch every day of the window that is not cached and,
   * if at least one fetch was issued, notify once after the whole batch.
   */
  method PrefetchDays(s: Store<Meal>, userId: Option<UserId>, today: DayKey, fetch: DayKey -> FetchOutcome<Meal>)
    returns (s': Store<Meal>, requested: seq<DayKey>)
    ensures userId.None? ==> s' == s && requested == []
    ensures userId.Some? ==> requested == Missing(s.cache, WindowKeys(today, WindowDays))
    ensures userId.Some? ==> forall k :: k in requested <==> today - WindowDays < k <= today && k !in s.cache
    ensures forall k :: k in s.cache ==> k in s'.cache && s'.cache[k] == s.cache[k]
    ensures forall k :: k in s'.cache ==> k in s.cache || k in requested
    ensures forall k :: k in requested ==> (k in s'.cache <==> fetch(k).Success?)
    ensures forall k :: k in requested && fetch(k).Success? ==> s'.cache[k] == fetch(k).value.GetOr([])
    ensures requested == [] ==> s'.bus == s.bus
    ensures requested != [] ==> s'.bus == Notify(s.bus)
  {
    if userId.None? {
      return s, [];
    }
    var c';
    c', requested := FetchMissing(s.cache, WindowKeys(today, WindowDays), fetch);
    forall k ensures k in requested <==> today - WindowDays < k <= today && k !in s.cache {
      WindowMembership(today, WindowDays, k);
    }
    if |requested| > 0 {
      s' := Store(c', Notify(s.bus));
    } else {
      s' := Store(c', s.bus);
    }
  }

  /** A mutation's effect on the shared store and what the hook returns. */
  datatype Mutation<C, T> = Mutation(store: Store<Meal>, call: Option<C>, data: Option<T>, error: Option<string>)

  /** The row `addMeal` inserts: the draft plus the owner. */
  datatype MealInsert = MealInsert(userId: UserId, draft: MealDraft)

  /**
   * `addMeal`: without a user nothing is inserted and the error is
   * `'No user ID'`. The cache is cleared (and listeners notified) only
   * after the insert succeeded; on failure the store is unchanged.
   */
  function AddMeal(s: Store<Meal>, userId: Option<UserId>, draft: MealDraft, insert: Outcome<Meal>)
    : (r: Mutation<MealInsert, Meal>)
    ensures userId.None? ==> r.store == s && r.call.None? && r.data.None? && r.error == Some("No user ID")
    ensures userId.Some? ==> r.call == Some(MealInsert(userId.value, draft))
    ensures userId.Some? && insert.Success? ==>
      r.store == Invalidate(s) && r.data == Some(insert.value) && r.error.None?
    ensures userId.Some? && insert.Failure? ==>
      r.store == s && r.data.None? && r.error == Some(insert.message)
  {
    if userId.None? then Mutation(s, None, None, Some("No user ID"))
    else
      var call := Some(MealInsert(userId.value, draft));
      match insert
      case Success(row) => Mutation(Invalidate(s), call, Some(row), None)
      case Failure(msg) => Mutation(s, call, None, Some(msg))
  }

  /** `updateMeal`: clear and notify only after the update succeeded. */
  function UpdateMeal<P>(s: Store<Meal>, mealId: string, updates: P, outcome: Outcome<Meal>)
    : (r: Mutation<(string, P), Meal>)
    ensures r.call == Some((mealId, updates))
    ensures outcome.Success? ==> r.store == Invalidate(s) && r.data == Some(outcome.value) && r.error.None?
    ensures outcome.Failure? ==> r.store == s && r.data.None? && r.error == Some(outcome.message)
  {
    match outcome
    case Success(row) => Mutation(Invalidate(s), Some((mealId, updates)), Some(row), None)
    case Failure(msg) => Mutation(s, Some((mealId, updates)), None, Some(msg))
  }

  /** `deleteMeal`: clear and notify only after the delete succeeded. */
  function DeleteMeal(s: Store<Meal>, mealId: string, outcome: Outcome<()>): (r: Mutation<string, ()>)
    ensures r.call == Some(mealId) && r.data.None?
    ensures outcome.Success? ==> r.store == Invalidate(s) && r.error.None?
    ensures outcome.Failure? ==> r.store == s && r.error == Some(outcome.message)
  {
    match outcome
    case Success(_) => Mutation(Invalidate(s), Some(mealId), None, None)
    case Failure(msg) => Mutation(s, Some(mealId), None, Some(msg))
  }

  /** Whether `k` is one of the days `prefetchDays` covers. */
  predicate InWindow(k: DayKey, today: DayKey) {
    today - WindowDays < k <= today
  }

  /**
   * `refetch` (and the mount effect): `fetchMeals`, then `prefetchDays`.
   * `selectedOutcome` answers `fetchMeals`' query and `fetch` answers the
   * prefetch queries; when the first query fails, the prefetch queries the
   * selected day again if it is in the window, so the day can end up
   * cached while the view shows `[]`. Listeners are notified once exactly
   * when the prefetch requested some day, even if every request failed.
   */
  method Refetch(s: Store<Meal>, v: MealsView, userId: Option<UserId>, selected: DayKey, today: DayKey,
                 selectedOutcome: FetchOutcome<Meal>, fetch: DayKey -> FetchOutcome<Meal>)
    returns (s': Store<Meal>, v': MealsView)
    ensures userId.None? ==> s' == s && v' == v.(loading := false)
    ensures userId.Some? ==> !v'.loading && v'.error.None?
    ensures userId.Some? ==>
      (selected in s'.cache <==>
        selected in s.cache || selectedOutcome.Success? || (InWindow(selected, today) && fetch(selected).Success?))
    ensures userId.Some? && selected in s.cache ==> v'.meals == s.cache[selected]
    ensures userId.Some? && selected !in s.cache ==>
      v'.meals == (if selectedOutcome.Success? then selectedOutcome.value.GetOr([]) else [])
    ensures userId.Some? && selected !in s.cache && selectedOutcome.Success? ==>
      s'.cache[selected] == selectedOutcome.value.GetOr([])
    ensures forall k :: k in s.cache ==> k in s'.cache && s'.cache[k] == s.cache[k]
    ensures userId.Some? ==> forall k :: InWindow(k, today) && k != selected ==>
      (k in s'.cache <==> k in s.cache || fetch(k).Success?)
    ensures userId.Some? ==> forall k :: k in s'.cache && k !in s.cache && k != selected ==>
      InWindow(k, today) && s'.cache[k] == fetch(k).value.GetOr([])
    ensures s'.bus == s.bus || s'.bus == Notify(s.bus)
    ensures userId.Some? ==> (s'.bus == Notify(s.bus) <==>
      exists k :: InWindow(k, today) && k !in s.cache && !(k == selected && selectedOutcome.Success?))
  {
    var f := FetchMeals(s.cache, v, userId, selected, selectedOutcome);
    v' := f.view;
    var requested;
    s', requested := PrefetchDays(Store(f.cache, s.bus), userId, today, fetch);
    if userId.Some? && requested != [] {
      var k := requested[0];
      assert k in requested;
      assert InWindow(k, today) && k !in s.cache && !(k == selected && selectedOutcome.Success?);
    }
  }

  /**
   * The realtime handler: clear the cache and notify, then refetch the
   * selected day (answered by `selectedOutcome`) and the window (answered
   * by `fetch`). A day ends up cached exactly when one of its queries
   * succeeded, holding that query's rows, and the version moves by two
   * (the clear, then the prefetch batch, which cannot be empty after a
   * clear).
   */
  method OnRealtimeEvent(s: Store<Meal>, v: MealsView, userId: UserId, selected: DayKey, today: DayKey,
                         selectedOutcome: FetchOutcome<Meal>, fetch: DayKey -> FetchOutcome<Meal>)
    returns (s': Store<Meal>, v': MealsView)
    ensures v'.meals == (if selectedOutcome.Success? then selectedOutcome.value.GetOr([]) else [])
    ensures !v'.loading && v'.error.None?
    ensures forall k :: k in s'.cache <==>
      (k == selected && selectedOutcome.Success?) || (InWindow(k, today) && fetch(k).Success?)
    ensures selectedOutcome.Success? ==> s'.cache[selected] == selectedOutcome.value.GetOr([])
    ensures forall k :: k in s'.cache && !(k == selected && selectedOutcome.Success?) ==>
      s'.cache[k] == fetch(k).value.GetOr([])
    ensures s'.bus.version == s.bus.version + 2
  {
    var cleared := Invalidate(s);
    var f := FetchMeals(cleared.cache, v, Some(userId), selected, selectedOutcome);
    v' := f.view;
    var requested;
    s', requested := PrefetchDays(Store(f.cache, cleared.bus), Some(userId), today, fetch);
    var probe := if selected == today then today - 1 else today;
    assert probe !in f.cache;
    assert probe in requested;
  }

  function Calories(m: Meal): real { m.calories }
  function Protein(m: Meal): real { m.protein }
  function Carbs(m: Meal): real { m.carbs }
  function Fat(m: Meal): real { m.fat }

  const EmptySummary := DailySummary(0.0, 0.0, 0.0, 0.0, 0, 0)

  /** One step of the `reduce` in `getDailySummary`; note it resets `totalWater` to 0. */
  function AddToSummary(acc: DailySummary, m: Meal): DailySummary {
    DailySummary(
      acc.totalCalories + m.calories,
      acc.totalProtein + m.protein,
      acc.totalCarbs + m.carbs,
      acc.totalFat + m.fat,
      0,
      acc.mealsCount + 1)
  }

  function FoldSummary(acc: DailySummary, meals: seq<Meal>): DailySummary
    decreases |meals|
  {
    if meals == [] then acc else FoldSummary(AddToSummary(acc, meals[0]), meals[1..])
  }

  lemma {:induction false} FoldSummaryIsSum(acc: DailySummary, meals: seq<Meal>)
    decreases |meals|
    ensures var r := FoldSummary(acc, meals);
      && r.totalCalories == acc.totalCalories + Sum(meals, Calories)
      && r.totalProtein == acc.totalProtein + Sum(meals, Protein)
      && r.totalCarbs == acc.totalCarbs + Sum(meals, Carbs)
      && r.totalFat == acc.totalFat + Sum(meals, Fat)
      && r.totalWater == (if meals == [] then acc.totalWater else 0)
      && r.mealsCount == acc.mealsCount + |meals|
  {
    if meals != [] {
      FoldSummaryIsSum(AddToSummary(acc, meals[0]), meals[1..]);
    }
  }

  /**
   * `getDailySummary`: the exact sums of calories, protein, carbs and fat,
   * the number of meals, and a water total that is always 0.
   */
  function GetDailySummary(meals: seq<Meal>): (r: DailySummary)
    ensures r.totalCalories == Sum(meals, Calories)
    ensures r.totalProtein == Sum(meals, Protein)
    ensures r.totalCarbs == Sum(meals, Carbs)
    ensures r.totalFat == Sum(meals, Fat)
    ensures r.totalWater == 0
    ensures r.mealsCount == |meals|
  {
    FoldSummaryIsSum(EmptySummary, meals);
    FoldSummary(EmptySummary, meals)
  }

  /** The daily summary of two lists of meals is the component-wise sum of their summaries. */
  lemma DailySummaryAppend(a: seq<Meal>, b: seq<Meal>)
    ensures var ra, rb, r := GetDailySummary(a), GetDailySummary(b), GetDailySummary(a + b);
      && r.totalCalories == ra.totalCalories + rb.totalCalories
      && r.totalProtein == ra.totalProtein + rb.totalProtein
      && r.totalCarbs == ra.totalCarbs + rb.totalCarbs
      && r.totalFat == ra.totalFat + rb.totalFat
      && r.mealsCount == ra.mealsCount + rb.mealsCount
  {
    SumAppend(a, b, Calories);
    SumAppend(a, b, Protein);
    SumAppend(a, b, Carbs);
    SumAppend(a, b, Fat);
  }

  /** The calories the weekly strip shows for a day: 0 when the day is not cached. */
  function DayCalories(c: Cache<Meal>, k: DayKey): real {
    if k in c then Sum(c[k], Calories) else 0.0
  }

  /** `dayAbbrev`, indexed by `Date.getDay()` (0 = Sunday). */
  const DayAbbrev: seq<char> := ['S', 'M', 'T', 'W', 'T', 'F', 'S']

  /** The day of the week `i` days before a day whose day of the week is `weekday`. */
  function WeekdayBefore(weekday: int, i: int): (r: int)
    ensures 0 <= r < 7
  {
    (weekday - i) % 7
  }

  datatype WeeklySummary = WeeklySummary(calories: seq<real>, labels: seq<char>, isToday: seq<bool>)

  /**
   * `getWeeklySummary`: three arrays of length 7, oldest day first. Slot
   * `j` is the day `6 - j` days before today; only the last slot is today;
   * a cached day shows the sum of its meals' calories, an uncached one 0.
   */
  method GetWeeklySummary(c: Cache<Meal>, today: DayKey, todayWeekday: int) returns (w: WeeklySummary)
    requires 0 <= todayWeekday < 7
    ensures |w.calories| == 7 && |w.labels| == 7 && |w.isToday| == 7
    ensures forall j :: 0 <= j < 7 ==> (w.isToday[j] <==> j == 6)
    ensures forall j :: 0 <= j < 7 ==> w.calories[j] == DayCalories(c, today - (6 - j))
    ensures forall j :: 0 <= j < 7 ==> w.labels[j] == DayAbbrev[WeekdayBefore(todayWeekday, 6 - j)]
  {
    var calories: seq<real> := [];
    var labels: seq<char> := [];
    var flags: seq<bool> := [];
    var i := 6;
    while i >= 0
      invariant -1 <= i <= 6
      invariant |calories| == |labels| == |flags| == 6 - i
      invariant forall j :: 0 <= j < 6 - i ==> (flags[j] <==> j == 6)
      invariant forall j :: 0 <= j < 6 - i ==> calories[j] == DayCalories(c, today - (6 - j))
      invariant forall j :: 0 <= j < 6 - i ==> labels[j] == DayAbbrev[WeekdayBefore(todayWeekday, 6 - j)]
    {
      var key := today - i;
      labels := labels + [DayAbbrev[WeekdayBefore(todayWeekday, i)]];
      flags := flags + [i == 0];
      if key in c {
        var total := Fold(0.0, c[key], Calories);
        FoldIsSum(0.0, c[key], Calories);
        calories := calories + [total];
      } else {
        calories := calories + [0.0];
      }
      i := i - 1;
    }
    w := WeeklySummary(calories, labels, flags);
  }
}
