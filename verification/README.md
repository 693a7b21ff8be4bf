# MacroLens core in Dafny

This project models the client-side logic of MacroLens, a React Native nutrition tracker. Users log meals, either from a photo through an AI analysis or by hand, and log water. The model covers:

- **Read-through day caches.** `useMeals` and `useHydration` each keep a map from day key to that day's records. Each also has a version counter that tells other hook instances to re-render. The model covers the per-day fetch, the prefetch window (7 days for meals, 5 for water), clearing after a successful write, the realtime handler, and the meals hook's daily and weekly summaries.
- **`cacheManager`.** It owns the meals map and a hydration map that no hook uses.
- **`useToast`.** The queue of visible toasts.
- **The AI pipeline (`mealAnalysis.ts`).** The upload file name, the error mapping of the edge-function call, and the progress steps of the image and text-only workflows.
- **`AnalysisLoadingOverlay`.** The steps it lists, and whether each is completed, current or pending.
- **The image cleanup (`imageCleanup.ts`).** The once-a-day rule, extracting a storage path from a URL, and the per-meal delete/update tally.
- **The three input validators.** The manual-log sheet, the older manual-log screen, and the settings editor, together with what each one saves.
- **`DailyLogScreen`.** The timeline that merges meals and water logs newest first, day navigation, and the delete confirmation.

Shared modelling decisions:

- **Backend calls are inputs.** Supabase queries, inserts, updates, deletes, storage upload and remove, the edge function, and device storage each become a value or function parameter. Each one answers success (with data) or failure (with a message). A model function takes that answer and returns the new state together with the call it issued.
- **User ids are non-empty strings.** `UserId` excludes `""`, so the source's `!userId` test holds exactly when there is no user (`None`).
- **Day keys are integers.** "n days before today" is `today - n`. Meal nutrition values are reals. Water amounts are integers.
- **Parsed numbers use the JavaScript number type `Num`:** NaN, a finite real, or ±Infinity. `parseInt`, `parseFloat` and `calculateHealthStats` are function parameters.
- **JavaScript behaviour is written out:**
  - a string is truthy exactly when non-empty, so an error message of `""` counts as no error wherever the source tests `if (error)`;
  - `s.length` counts UTF-16 code units (`Utf16Length`): a character outside the Basic Multilingual Plane counts twice;
  - `x || fallback` on strings is `OrElse`;
  - `String.prototype.trim` strips the ECMAScript WhiteSpace and LineTerminator characters.
- **The prefetch is split into two phases.** The source checks every key's cache membership before its first `await`. The model therefore selects the missing keys first and then applies the fetches.

Modules:

| Module | File |
|---|---|
| `Common` | common.dfy |
| `Records` | records.dfy |
| `Sums` | sums.dfy |
| `DayCache` | day_cache.dfy |
| `MealsHook` | meals_hook.dfy |
| `HydrationHook` | hydration_hook.dfy |
| `CacheManager` | cache_manager.dfy |
| `ToastQueue` | toast.dfy |
| `MealAnalysis` | meal_analysis.dfy |
| `AnalysisOverlay` | analysis_overlay.dfy |
| `ImageCleanup` | image_cleanup.dfy |
| `ManualLog` | manual_log.dfy |
| `ManualLogScreen` | manual_log_screen.dfy |
| `Settings` | settings.dfy |
| `DailyLog` | daily_log.dfy |

## Model

| member | source | states |
|---|---|---|
| Common.Trim | src/components/ManualLogContent.tsx:73 | The trimmed string is a contiguous slice of the input. Everything cut from either end is whitespace, and the result neither starts nor ends with whitespace. |
| Common.TrimIdempotent | src/components/ManualLogContent.tsx:103 | Trimming an already trimmed description changes nothing. |
| Common.TrimEmptyIffBlank | src/components/ManualLogContent.tsx:73 | `description.trim()` is empty exactly when every character is whitespace, so a description of only spaces is refused. |
| Common.Utf16Length | src/services/mealAnalysis.ts:95 | `s.length` lies between the number of characters and twice that number. |
| Common.Utf16LengthIsCountIffBmp | src/components/ManualLogContent.tsx:37 | `s.length` equals the number of characters exactly when every character lies in the Basic Multilingual Plane. |
| Common.OrZero | src/screens/SettingsScreen.tsx:59-63 | `x \|\| 0` on a parsed number is never NaN. It is 0 exactly when the input was NaN or 0, and otherwise the input unchanged. |
| Common.OrElse | src/services/mealAnalysis.ts:78 | `msg \|\| fallback` is the message when it is non-empty and the fallback otherwise. |
| Sums.FoldIsSum | src/hooks/useMeals.ts:210-227 | The left fold that `reduce` performs equals the recursive sum, offset by the starting accumulator. |
| Sums.FoldIntIsSum | src/hooks/useHydration.ts:102 | The same for integer amounts. |
| Sums.SumAppend | src/hooks/useMeals.ts:256 | A sum over two concatenated lists is the sum of the two sums. |
| DayCache.Subscribe | src/hooks/useMeals.ts:26-34 | Adding a listener records the current version for it and leaves the others unchanged. |
| DayCache.Unsubscribe | src/hooks/useMeals.ts:31-33 | Removing a listener drops only that listener. |
| DayCache.Notify | src/hooks/useMeals.ts:13-16 | `notifyCacheUpdate` adds one to the version, and every listener then holds the new version. For a well-formed bus, each listener's observed version strictly increases. |
| DayCache.Invalidate | src/hooks/useMeals.ts:138-143 | `clearCache` leaves no key cached and notifies exactly once. |
| DayCache.FetchForDate | src/hooks/useMeals.ts:74-101 | On success the day's key holds the returned rows (`null` becomes `[]`) and no other key changes. On failure the cache is unchanged and the rows are `[]`. |
| DayCache.WindowMembership | src/hooks/useMeals.ts:49-52 | A key is in the n-day window exactly when `today - n < k <= today`. |
| DayCache.MissingMembers | src/hooks/useMeals.ts:49-56 | A key is selected for fetching exactly when it is one of the window keys and not yet cached. |
| DayCache.SelectMissing | src/hooks/useMeals.ts:49-61 | The loop, which checks each key against the cache as it was before any fetch, selects the uncached keys in window order. |
| DayCache.ApplyFetches | src/hooks/useMeals.ts:63-64 | After the fetches, cached keys are unchanged. A requested key is present exactly when its fetch succeeded, and then it holds the fetched rows. Nothing else is added. |
| DayCache.FetchMissing | src/hooks/useMeals.ts:42-71 | Composes the selection and the fetches, with both guarantees. |
| MealsHook.FetchMeals | src/hooks/useMeals.ts:104-135 | Without a user, only `loading` changes. On a cache hit, the cached meals are shown and nothing is queried. On a miss the day is queried. It is cached exactly when the query succeeded, and its rows are shown, or `[]` on failure. |
| MealsHook.PrefetchDays | src/hooks/useMeals.ts:42-71 | Requests exactly the uncached days of the last 7. Notifies exactly when something was requested, even if every fetch failed. Never changes an already cached day. |
| MealsHook.AddMeal | src/hooks/useMeals.ts:146-175 | Without a user, nothing is inserted and the error is `'No user ID'`. After a successful insert the cache is cleared and listeners notified. After a failed one the store is unchanged. |
| MealsHook.UpdateMeal | src/hooks/useMeals.ts:178-193 | The update is issued for the given id. The cache is cleared only on success. |
| MealsHook.DeleteMeal | src/hooks/useMeals.ts:196-206 | The delete is issued for the given id. The cache is cleared only on success. |
| MealsHook.Refetch | src/hooks/useMeals.ts:304-307 | `fetchMeals` and the prefetch query the selected day separately, with answers that can differ. The selected day is cached afterwards exactly when it was cached before, `fetchMeals`'s query succeeded, or it is a window day whose prefetch query succeeded. The view shows `fetchMeals`'s answer, which can be `[]` even when the prefetch then caches the day. Every other window day is cached exactly when it was before or its query succeeded. Earlier entries are kept, and nothing outside the window and the selected day is added. Listeners are notified once, exactly when some window day was still uncached after `fetchMeals` (even if every prefetch query then failed), and are otherwise left alone. |
| MealsHook.OnRealtimeEvent | src/hooks/useMeals.ts:288-295 | After clear, fetch and prefetch, a day is cached exactly when it is the selected day and `fetchMeals`'s query succeeded, or it is a window day whose prefetch query succeeded. The view shows `fetchMeals`'s answer. Each cached day holds the rows of the query that cached it. The version advances by two. |
| MealsHook.FoldSummaryIsSum | src/hooks/useMeals.ts:210-227 | Folding meals into a running summary adds the list's totals and its length to the accumulator. |
| MealsHook.GetDailySummary | src/hooks/useMeals.ts:209-228 | The totals are the sums of the meals' calories, protein, carbs and fat. The meal count is the list's length and the water total is 0. |
| MealsHook.DailySummaryAppend | src/hooks/useMeals.ts:209-228 | The summary of two lists of meals is the field-wise sum of their summaries. |
| MealsHook.WeekdayBefore | src/hooks/useMeals.ts:242-245 | The weekday i days earlier is in 0..6 and is `wd - i` modulo 7. |
| MealsHook.GetWeeklySummary | src/hooks/useMeals.ts:231-267 | Returns seven entries, oldest first. Only the last is flagged as today. Entry j is the calorie total of day `today - (6 - j)` (0 when that day is not cached), and its label is that day's weekday letter. |
| HydrationHook.TotalMl | src/hooks/useHydration.ts:102 | The `reduce` over amounts equals the sum of the logs' amounts. |
| HydrationHook.TotalMlAppend | src/hooks/useHydration.ts:114 | The water total of two lists adds up. |
| HydrationHook.FetchHydration | src/hooks/useHydration.ts:90-123 | Same hit/miss rules as the meals fetch. On both paths the shown total equals the sum of the shown logs. |
| HydrationHook.PrefetchDays | src/hooks/useHydration.ts:43-61 | Skipped without a user or when this instance already prefetched. Otherwise sets the flag and requests exactly the uncached days of the last 5. Never notifies and never changes a cached day. |
| HydrationHook.ClearCache | src/hooks/useHydration.ts:126-132 | Empties the water map, resets this instance's prefetch flag, and bumps the hydration version. |
| HydrationHook.ClearAndRefetch | src/hooks/useHydration.ts:147-148 | After clearing and refetching, only the selected day can be cached, and it is cached exactly when the refetch succeeded. The total matches the logs. |
| HydrationHook.AddWater | src/hooks/useHydration.ts:135-153 | Without a user, nothing is inserted and the error is `'No user ID'`. A successful insert clears and refetches. A failed one changes nothing. |
| HydrationHook.DeleteWaterLog | src/hooks/useHydration.ts:156-170 | Has no user check. It clears and refetches only after a successful delete. |
| HydrationHook.AddSmallCup | src/hooks/useHydration.ts:173 | Inserts 250 ml (`HYDRATION_QUICK_ADD.small`). |
| HydrationHook.AddLargeCup | src/hooks/useHydration.ts:174 | Inserts 500 ml (`HYDRATION_QUICK_ADD.large`). |
| HydrationHook.OnRealtimeEvent | src/hooks/useHydration.ts:197-200 | Afterwards, exactly the selected day is cached, if its refetch succeeded. No prefetch is issued and the version advances by one. |
| CacheManager.GetMealsCache | src/utils/cacheManager.ts:24-26 | Returns the manager's own meals map. Its days are exactly those `getStats` lists, and its size is the size `getStats` reports. |
| CacheManager.GetHydrationCache | src/utils/cacheManager.ts:31-33 | The same for the hydration map. |
| CacheManager.MealsWritesVisibleThroughManager | src/utils/cacheManager.ts:24-26 | The getter returns the map itself, not a copy. A day the meals hook has cached is therefore present in the next `getMealsCache()` with the same rows, and `getStats` counts it. |
| CacheManager.ClearAll | src/utils/cacheManager.ts:15-19 | Both maps the manager owns end up empty. |
| CacheManager.GetStats | src/utils/cacheManager.ts:38-45 | The key lists are exactly the maps' keys, and each size equals its key count. |
| CacheManager.ClearAllCaches | src/utils/cacheManager.ts:15-19 | `clearAll` empties the meals cache the meals hook reads. It notifies no listener and leaves the hydration hook's own water map untouched. |
| ToastQueue.ShowToast | src/hooks/useToast.ts:13-16 | Appends one toast stamped with the clock and keeps the earlier toasts in place. |
| ToastQueue.DismissToast | src/hooks/useToast.ts:18-20 | A toast survives exactly when its id differs from the dismissed one. |
| ToastQueue.DismissDistributes | src/hooks/useToast.ts:19 | Dismissal filters piecewise, so survivors keep their relative order. |
| ToastQueue.DismissAbsentIsIdentity | src/hooks/useToast.ts:19 | Dismissing an id no toast carries changes nothing. |
| ToastQueue.ShowThenDismiss | src/hooks/useToast.ts:13-20 | Showing a toast and dismissing its id gives the same queue as dismissing that id alone. |
| ToastQueue.ShowSuccess | src/hooks/useToast.ts:22-24 | Appends a success toast with the message. |
| ToastQueue.ShowError | src/hooks/useToast.ts:26-28 | Appends an error toast with the message. |
| ToastQueue.ShowWarning | src/hooks/useToast.ts:30-32 | Appends a warning toast with the message. |
| ToastQueue.ShowInfo | src/hooks/useToast.ts:34-36 | Appends an info toast with the message. |
| MealAnalysis.NatToString | src/services/mealAnalysis.ts:14-15 | The timestamp's decimal text is non-empty, all digits, and has no leading zero. |
| MealAnalysis.ParseNatToString | src/services/mealAnalysis.ts:14-15 | Reading the digits back gives the timestamp. |
| MealAnalysis.UploadFilename | src/services/mealAnalysis.ts:15 | The name is the user id, `/`, the timestamp's digits and `.jpg`. |
| MealAnalysis.FilenameDeterminesTimestamp | src/services/mealAnalysis.ts:13-15 | One user's uploads at different milliseconds never share a file name. |
| MealAnalysis.UploadMealImage | src/services/mealAnalysis.ts:8-45 | A stored file gives its public URL and no error. A failed upload gives the error message and no URL. |
| MealAnalysis.AnalyzeMealWithAI | src/services/mealAnalysis.ts:50-80 | The request carries the user, the image URL and the description. Data comes back exactly when the call reported no error and returned data. Otherwise the error is a non-empty message, and `'No data returned from AI analysis'` when nothing was returned. |
| MealAnalysis.LogMealWithAI | src/services/mealAnalysis.ts:134-169 | A failed upload never reaches the analysis and reports steps `uploading, done`. A successful run reports `uploading, analyzing, extracting, completing, done` and returns the data and URL. A failed analysis returns no URL. `done` is always last, and data is present exactly when there is no error. |
| MealAnalysis.AnalyzeMealTextOnly | src/services/mealAnalysis.ts:86-129 | A trimmed description under 10 UTF-16 code units fails with steps `parsing, done` and no request. Otherwise the request carries the trimmed description and no image, and the steps are `parsing, estimating[, finalizing], done`. |
| AnalysisOverlay.StepsFor | src/components/ui/AnalysisLoadingOverlay.tsx:13-29 | Image mode (the default) lists 4 steps. Text mode lists 3. |
| AnalysisOverlay.FindIndex | src/components/ui/AnalysisLoadingOverlay.tsx:62 | `findIndex` returns -1 exactly when the step is absent. Otherwise it returns the first position holding it. |
| AnalysisOverlay.GetStepIndex | src/components/ui/AnalysisLoadingOverlay.tsx:60-63 | `done` maps to one past the last step. A listed step maps to its position, and an unlisted one to -1. |
| AnalysisOverlay.Flags | src/components/ui/AnalysisLoadingOverlay.tsx:80-82 | Exactly one of completed, current and pending holds for each row. |
| AnalysisOverlay.Render | src/components/ui/AnalysisLoadingOverlay.tsx:58-110 | Nothing is drawn exactly when neither `visible` nor `renderOverlay` holds. Otherwise there is one row per step, and every row but the last has a connector, which is green exactly when the row is completed. All rows are completed at `done` and pending for an unlisted step. At most one row is current, and the current step's row is current. |
| ImageCleanup.ShouldRunCleanup | src/services/imageCleanup.ts:11-28 | Returns false when the read failed. Returns true when nothing or an empty string was stored. Otherwise returns true exactly when the stored date parses and at least one day (86 400 000 ms) has passed. |
| ImageCleanup.MatchFrom | src/services/imageCleanup.ts:87 | Finds the first regular-expression match position at or after i, or reports that there is none. |
| ImageCleanup.ExtractPath | src/services/imageCleanup.ts:87-95 | A path is extracted exactly when some `meal-images/` is followed by a non-empty rest without line terminators. It is the rest after the leftmost such occurrence. |
| ImageCleanup.ExtractPathOfPublicUrl | src/services/imageCleanup.ts:85-95 | For a public URL ending in `meal-images/` plus a storage path, the path comes back, provided the folder name occurs nowhere earlier. |
| ImageCleanup.SelectOldMeals | src/services/imageCleanup.ts:52-63 | The query rows are exactly the user's meals older than the cutoff that have an image URL. |
| ImageCleanup.OldMealsPassedRetention | src/services/imageCleanup.ts:52-63 | With the cutoff `IMAGE_RETENTION_DAYS` (90) days of 24 hours before now, the query selects a meal of the user exactly when it has an image and was created more than 90 × 86 400 000 ms ago. |
| ImageCleanup.ProcessMeal | src/services/imageCleanup.ts:83-124 | No path means an error and no call. The database row is updated only after the storage removal succeeded. A meal counts as cleaned exactly when path, removal and update all succeeded. |
| ImageCleanup.CountCleanedAllOrNothing | src/services/imageCleanup.ts:120-127 | The deleted count equals the number of meals exactly when every meal was cleaned. |
| ImageCleanup.CleanupOldMealImages | src/services/imageCleanup.ts:34-135 | A skip, a missing user or a failed query leaves the last-run date alone. An empty answer, or a completed loop, writes it. Every row is processed in order, and `deletedCount + errorCount` equals the number of rows. |
| ManualLog.CaloriesValue | src/components/ManualLogContent.tsx:79 | Empty calories count as 0. Otherwise the parsed integer is used, NaN included. |
| ManualLog.MacroValue | src/components/ManualLogContent.tsx:80-82 | A macro is never NaN. An empty or unparsable field counts as 0. |
| ManualLog.ValidateContent | src/components/ManualLogContent.tsx:71-104 | Refuses a blank description, then an all-zero form, then non-empty calories that are NaN or negative, each as an if-and-only-if. An accepted draft is manual, carries the trimmed description, and has non-NaN, non-negative calories and not all values zero. |
| ManualLog.HandleSave | src/components/ManualLogContent.tsx:71-119 | A refused form shows one toast and calls nothing. An accepted one goes to `addMeal`. The form is cleared and the sheet closed with a success toast exactly when `addMeal` reports no error, meaning `null` or an empty message. A non-empty error keeps the form and shows an error toast. |
| ManualLog.SaveWithoutUserKeepsForm | src/components/ManualLogContent.tsx:97-108 | Without a user, nothing is inserted and the typed form stays. |
| ManualLog.AIEstimateGate | src/components/ManualLogContent.tsx:36-45 | Checks the description first: a trimmed length of at least 10 UTF-16 code units. It checks the user second. |
| ManualLog.GateAgreesWithTextAnalysis | src/components/ManualLogContent.tsx:37-53 | Both use the same UTF-16 length. With a user, the sheet proceeds exactly when the text analysis issues its request and the AI button is shown. |
| ManualLog.HandleGetAIEstimate | src/components/ManualLogContent.tsx:36-69 | A successful estimate overwrites the four number fields, never the description, and shows an info toast. A failure keeps the form and shows a non-empty error. |
| ManualLogScreen.ValidateScreen | src/screens/ManualLogMealScreen.tsx:31-55 | Refuses NaN in any field, then non-positive calories, each as an if-and-only-if. An accepted draft has parsed, non-NaN values and positive calories. It keeps the untrimmed description, or none when the description is empty. |
| ManualLogScreen.ScreenAcceptImpliesContentAccept | src/screens/ManualLogMealScreen.tsx:32-45 | Every form this screen accepts with a non-blank description, the sheet accepts too, with the same numbers. |
| ManualLogScreen.ContentAcceptsWhatScreenRefuses | src/components/ManualLogContent.tsx:79-94 | Calories alone with empty macros are accepted by the sheet and refused by this screen. |
| ManualLogScreen.HandleSave | src/screens/ManualLogMealScreen.tsx:31-65 | Refused input raises an "Invalid Input" alert and calls nothing. The screen goes back exactly when `addMeal` reports no error, meaning `null` or an empty message. |
| Settings.DisplayedBody | src/screens/SettingsScreen.tsx:59-66 | The live stats never receive NaN. They receive the parsed value whenever that is a non-zero number, and 0 otherwise. |
| Settings.DisplayedStats | src/screens/SettingsScreen.tsx:59-66 | The live stats are the calculator's answer for values that are never NaN. Each value is the parsed field or 0. When none of `parseFloat(height)`, `parseFloat(weight)` and `parseInt(age)` is NaN or at most 0, these are the stats of those parsed values themselves. This is not the save validation, which reads height with `parseInt`. |
| Settings.HandleSave | src/screens/SettingsScreen.tsx:68-101 | Invalid stats (NaN or at most 0, with height and age parsed as integers) show only an error toast (`ToastShown`) and issue no update. Otherwise the update writes the parsed body, the TDEE as maintenance calories, the macro and water targets, and the goal. The saved height is `parseInt(height)`, but the targets are the live stats, computed from `parseFloat(height)`. For `"175.9"`, 175 is saved while the targets use 175.9. `saving` is on while the update is issued and off at the end. The sheet closes exactly when the stats are valid and the update reports no error (`null` or an empty message). |
| Settings.DefaultsAreValid | src/screens/SettingsScreen.tsx:34-36 | The initial fields 175 / 70 / 25 pass the validation. |
| DailyLog.Insert | src/screens/DailyLogScreen.tsx:120 | Inserting adds exactly the one entry: the result is the old list plus the entry, as a multiset. |
| DailyLog.InsertKeepsOrder | src/screens/DailyLogScreen.tsx:120 | Inserting into a newest-first list keeps it newest first. |
| DailyLog.SortNewestFirst | src/screens/DailyLogScreen.tsx:120 | The sort result is a permutation of the input, ordered newest first. |
| DailyLog.InsertAtTime | src/screens/DailyLogScreen.tsx:120 | An inserted entry goes ahead of all entries with its own timestamp. |
| DailyLog.SortIsStable | src/screens/DailyLogScreen.tsx:120 | Entries sharing a timestamp keep their input order. |
| DailyLog.Combined | src/screens/DailyLogScreen.tsx:102-117 | The merged list holds the meals first, then the water logs, each in its list's order and with its tag. |
| DailyLog.CombinedMembers | src/screens/DailyLogScreen.tsx:103-117 | The merged list holds every meal and every water log, each with its tag, and nothing else. |
| DailyLog.Timeline | src/screens/DailyLogScreen.tsx:102-121 | The timeline has `meals.length + waterLogs.length` entries and is a permutation of the merged list. It is newest first, contains every tagged meal and log, and contains nothing else. |
| DailyLog.TimelineIsStable | src/screens/DailyLogScreen.tsx:106-120 | Among equal timestamps, meals come before water logs and each list keeps its order. |
| DailyLog.TimelineCountsEachRecord | src/screens/DailyLogScreen.tsx:102-121 | Each meal and each log occurs in the timeline exactly as often as in its list. |
| DailyLog.NavigateDate | src/screens/DailyLogScreen.tsx:50-54 | The selected day moves by exactly the given number of days. |
| DailyLog.NavigateDateComposes | src/screens/DailyLogScreen.tsx:50-54 | Two moves add up, and a move followed by its opposite returns to the start. |
| DailyLog.Press | src/screens/DailyLogScreen.tsx:127-143 | The back arrow moves one day back. The forward arrow moves one day ahead, or does nothing on today. |
| DailyLog.NeverPastToday | src/screens/DailyLogScreen.tsx:140-143 | Starting on or before today, no sequence of arrow presses reaches a future day. |
| DailyLog.HandleDelete | src/screens/DailyLogScreen.tsx:56-59 | Opens the dialog with the meal as target. |
| DailyLog.HandleDeleteWater | src/screens/DailyLogScreen.tsx:61-64 | Opens the dialog with the water log as target. |
| DailyLog.CancelDelete | src/screens/DailyLogScreen.tsx:94-97 | Hides the dialog and clears the target. |
| DailyLog.ConfirmDelete | src/screens/DailyLogScreen.tsx:66-92 | With no target it is a no-op. Otherwise it hides the dialog and routes by type to `deleteMeal` or `deleteWaterLog`. One toast reports the result. The matching list is refetched exactly when the delete reports no error (`null` or an empty message), and the target is cleared. |
| DailyLog.DeleteMealRoundTrip | src/screens/DailyLogScreen.tsx:56-72 | Asking to delete a meal and confirming deletes exactly that meal. |
| DailyLog.DeleteWaterRoundTrip | src/screens/DailyLogScreen.tsx:61-81 | Asking to delete a water log and confirming deletes exactly that log. |
| DailyLog.CancelThenConfirmDeletesNothing | src/screens/DailyLogScreen.tsx:66-97 | After a cancel, a confirm issues no call and shows no toast. |

## Left out

- **Dates and time zones.** Day keys come from `toISOString()` (UTC) while day boundaries come from local `setHours`. Navigation and the 90-day cutoff use local calendar arithmetic (`setDate`). The model uses integer day keys. It takes the 90-day image cutoff as exactly 90 × 24 hours (`RetentionCutoff`), which differs from `setDate` across a daylight-saving change. The UTC/local mismatch and daylight-saving effects are not modelled.
- **Backend and device I/O.** Supabase, storage, the edge function, AsyncStorage and realtime channels appear only as the answers they give. Promise ordering, concurrency between hook instances, and the artificial `setTimeout` delays are not modelled.
- **React lifecycle.** React effects, re-renders, refs and `useCallback` identities are reduced to explicit state passed in and out. The version a listener observes stands for the `setCacheVersion` re-render.
- **Floating point.** Nutrition totals are sums of reals. Rounding in `reduce` and the `Math.round` formulas of `calculateHealthStats` are not modelled. The calculator, `parseInt` and `parseFloat` are parameters.
- **`getStats` key order.** The model returns key sets, not `Map` insertion order.
- **`AnalysisLoadingOverlay` animation.** The fade timing that keeps `renderOverlay` true after `visible` turns false is not modelled; `renderOverlay` is an input. Labels and icons are not modelled.
- **The settings profile sync.** The effect that copies a loaded profile into the editor, `handleSignOut`, and `useUserProfile` itself are not part of this model. The update's answer is an input.
- **`onRefresh` in `DailyLogScreen`.** It only runs both hooks' `refetch`, and those are modelled.
- **UI.** Rendering, styles, sheets and other UI-only components are not modelled.
- **`cacheManager.clearAll`'s caller.** The sign-out path that calls it is not modelled. `CacheManager.ClearAllCaches` states what the call does to the state the model has.
- **`MealsHook.UpdateMeal`.** The update payload is an opaque parameter. The model does not check which fields change.
- **`ManualLog.HandleGetAIEstimate`.** The number-to-text conversion of the pre-filled fields is a parameter, not JavaScript's `Number.prototype.toString`.
