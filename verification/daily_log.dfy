/**
 * The logic of `DailyLogScreen` (src/screens/DailyLogScreen.tsx): the
 * timeline merging the day's meals and water logs newest first, the day
 * navigation, and the state of the delete confirmation.
 */
module DailyLog {
  import opened Common
  import opened Records
  import opened ToastQueue

  /** A timeline item keeps its type tag and its original record. */
  datatype Entry = MealEntry(meal: Meal) | WaterEntry(log: HydrationLog)

  /** `new Date(created_at).getTime()`. */
  function Timestamp(e: Entry): int {
    match e
    case MealEntry(m) => m.createdAt
    case WaterEntry(l) => l.createdAt
  }

  function MealEntries(meals: seq<Meal>): (r: seq<Entry>)
    ensures |r| == |meals|
    ensures forall i :: 0 <= i < |r| ==> r[i] == MealEntry(meals[i])
  {
    if meals == [] then [] else [MealEntry(meals[0])] + MealEntries(meals[1..])
  }

  function WaterEntries(logs: seq<HydrationLog>): (r: seq<Entry>)
    ensures |r| == |logs|
    ensures forall i :: 0 <= i < |r| ==> r[i] == WaterEntry(logs[i])
  {
    if logs == [] then [] else [WaterEntry(logs[0])] + WaterEntries(logs[1..])
  }

  /** `combined`: the meals, then the water logs, each wrapped with its tag. */
  function Combined(meals: seq<Meal>, logs: seq<HydrationLog>): (r: seq<Entry>)
    ensures |r| == |meals| + |logs|
    ensures forall i :: 0 <= i < |meals| ==> r[i] == MealEntry(meals[i])
    ensures forall i :: 0 <= i < |logs| ==> r[|meals| + i] == WaterEntry(logs[i])
  {
    MealEntries(meals) + WaterEntries(logs)
  }

  /** Most recent first. */
  predicate NewestFirst(s: seq<Entry>) {
    forall i, j :: 0 <= i < j < |s| ==> Timestamp(s[i]) >= Timestamp(s[j])
  }

  /** Place `x` before the first entry that is not newer than it. */
  function Insert(x: Entry, l: seq<Entry>): (r: seq<Entry>)
    ensures |r| == |l| + 1
    ensures multiset(r) == multiset(l) + multiset{x}
  {
    if l == [] || Timestamp(l[0]) <= Timestamp(x) then [x] + l
    else
      assert l == [l[0]] + l[1..];
      [l[0]] + Insert(x, l[1..])
  }

  /** No entry of `s` is newer than `b`. */
  predicate AllAtMost(s: seq<Entry>, b: int) {
    forall e :: e in s ==> Timestamp(e) <= b
  }

  /** Prepending an entry no older than the rest keeps a list newest first. */
  lemma ConsNewestFirst(h: Entry, t: seq<Entry>)
    requires NewestFirst(t) && AllAtMost(t, Timestamp(h))
    ensures NewestFirst([h] + t)
  {
  }

  /** In a newest-first list nothing is newer than the head. */
  lemma HeadBoundsRest(l: seq<Entry>)
    requires NewestFirst(l) && l != []
    ensures AllAtMost(l, Timestamp(l[0])) && AllAtMost(l[1..], Timestamp(l[0]))
  {
  }

  /** Inserting an entry no newer than `b` keeps every entry at most `b`. */
  lemma InsertAtMost(x: Entry, l: seq<Entry>, b: int)
    requires AllAtMost(l, b) && Timestamp(x) <= b
    ensures AllAtMost(Insert(x, l), b)
  {
  }

  /** Inserting into a newest-first list keeps it newest first. */
  lemma {:induction false} InsertKeepsOrder(x: Entry, l: seq<Entry>)
    requires NewestFirst(l)
    ensures NewestFirst(Insert(x, l))
  {
    if l == [] || Timestamp(l[0]) <= Timestamp(x) {
      if l != [] { HeadBoundsRest(l); }
      ConsNewestFirst(x, l);
    } else {
      InsertKeepsOrder(x, l[1..]);
      HeadBoundsRest(l);
      InsertAtMost(x, l[1..], Timestamp(l[0]));
      ConsNewestFirst(l[0], Insert(x, l[1..]));
    }
  }

  /**
   * `combined.sort((a, b) => b - a)`: an insertion sort, which like
   * `Array.prototype.sort` is stable.
   */
  function SortNewestFirst(s: seq<Entry>): (r: seq<Entry>)
    ensures |r| == |s|
    ensures multiset(r) == multiset(s)
    ensures NewestFirst(r)
  {
    if s == [] then []
    else
      assert s == [s[0]] + s[1..];
      InsertKeepsOrder(s[0], SortNewestFirst(s[1..]));
      Insert(s[0], SortNewestFirst(s[1..]))
  }

  /** The entries of `s` stamped `t`, in order. */
  function AtTime(s: seq<Entry>, t: int): seq<Entry> {
    if s == [] then [] else (if Timestamp(s[0]) == t then [s[0]] else []) + AtTime(s[1..], t)
  }

  lemma {:induction false} InsertAtTime(x: Entry, l: seq<Entry>, t: int)
    ensures AtTime(Insert(x, l), t) == if Timestamp(x) == t then [x] + AtTime(l, t) else AtTime(l, t)
  {
    if l == [] || Timestamp(l[0]) <= Timestamp(x) {
      assert ([x] + l)[1..] == l;
    } else {
      var rest := Insert(x, l[1..]);
      assert ([l[0]] + rest)[1..] == rest;
      InsertAtTime(x, l[1..], t);
    }
  }

  /** Sorting keeps the order of entries that share a timestamp. */
  lemma {:induction false} SortIsStable(s: seq<Entry>, t: int)
    ensures AtTime(SortNewestFirst(s), t) == AtTime(s, t)
  {
    if s != [] {
      InsertAtTime(s[0], SortNewestFirst(s[1..]), t);
      SortIsStable(s[1..], t);
    }
  }

  /** Which records the merged list holds. */
  lemma CombinedMembers(meals: seq<Meal>, logs: seq<HydrationLog>)
    ensures forall i :: 0 <= i < |meals| ==> MealEntry(meals[i]) in Combined(meals, logs)
    ensures forall i :: 0 <= i < |logs| ==> WaterEntry(logs[i]) in Combined(meals, logs)
    ensures forall e :: e in Combined(meals, logs) ==>
      (e.MealEntry? && e.meal in meals) || (e.WaterEntry? && e.log in logs)
  {
  }

  /**
   * The `timeline` memo: every meal and every water log, each as often as
   * it occurs in its list and with its tag, most recent first.
   */
  function Timeline(meals: seq<Meal>, logs: seq<HydrationLog>): (r: seq<Entry>)
    ensures |r| == |meals| + |logs|
    ensures multiset(r) == multiset(Combined(meals, logs))
    ensures NewestFirst(r)
    ensures forall i :: 0 <= i < |meals| ==> MealEntry(meals[i]) in r
    ensures forall i :: 0 <= i < |logs| ==> WaterEntry(logs[i]) in r
    ensures forall e :: e in r ==> (e.MealEntry? && e.meal in meals) || (e.WaterEntry? && e.log in logs)
  {
    CombinedMembers(meals, logs);
    var c := Combined(meals, logs);
    var r := SortNewestFirst(c);
    assert forall e :: e in r <==> e in c by {
      forall e ensures e in r <==> e in c {
        assert e in r <==> e in multiset(r);
        assert e in c <==> e in multiset(c);
      }
    }
    r
  }

  /** Entries with the same timestamp keep their merged order: meals first, each list in its own order. */
  lemma TimelineIsStable(meals: seq<Meal>, logs: seq<HydrationLog>, t: int)
    ensures AtTime(Timeline(meals, logs), t) == AtTime(Combined(meals, logs), t)
  {
    SortIsStable(Combined(meals, logs), t);
  }

  lemma {:induction false} MealEntriesCount(meals: seq<Meal>, m: Meal, l: HydrationLog)
    ensures multiset(MealEntries(meals))[MealEntry(m)] == multiset(meals)[m]
    ensures multiset(MealEntries(meals))[WaterEntry(l)] == 0
  {
    if meals != [] {
      var h, t := meals[0], meals[1..];
      MealEntriesCount(t, m, l);
      assert meals == [h] + t;
      assert MealEntries(meals) == [MealEntry(h)] + MealEntries(t);
    }
  }

  lemma {:induction false} WaterEntriesCount(logs: seq<HydrationLog>, m: Meal, l: HydrationLog)
    ensures multiset(WaterEntries(logs))[WaterEntry(l)] == multiset(logs)[l]
    ensures multiset(WaterEntries(logs))[MealEntry(m)] == 0
  {
    if logs != [] {
      var h, t := logs[0], logs[1..];
      WaterEntriesCount(t, m, l);
      assert logs == [h] + t;
      assert WaterEntries(logs) == [WaterEntry(h)] + WaterEntries(t);
    }
  }

  /** Each meal and each water log appears in the timeline exactly as often as in its own list. */
  lemma TimelineCountsEachRecord(meals: seq<Meal>, logs: seq<HydrationLog>, m: Meal, l: HydrationLog)
    ensures multiset(Timeline(meals, logs))[MealEntry(m)] == multiset(meals)[m]
    ensures multiset(Timeline(meals, logs))[WaterEntry(l)] == multiset(logs)[l]
  {
    MealEntriesCount(meals, m, l);
    WaterEntriesCount(logs, m, l);
  }

  /** `navigateDate(days)`: the selected day moves by exactly `days`. */
  function NavigateDate(selected: DayKey, days: int): (r: DayKey)
    ensures r - selected == days
  {
    selected + days
  }

  lemma NavigateDateComposes(selected: DayKey, a: int, b: int)
    ensures NavigateDate(NavigateDate(selected, a), b) == NavigateDate(selected, a + b)
    ensures NavigateDate(NavigateDate(selected, a), -a) == selected
  {
  }

  /** The forward arrow is disabled exactly on today. */
  predicate ForwardDisabled(selected: DayKey, today: DayKey) {
    selected == today
  }

  /** A press of the back arrow (`forward == false`) or of the forward arrow, which does nothing while disabled. */
  function Press(selected: DayKey, today: DayKey, forward: bool): (r: DayKey)
    ensures forward && ForwardDisabled(selected, today) ==> r == selected
    ensures forward && !ForwardDisabled(selected, today) ==> r == selected + 1
    ensures !forward ==> r == selected - 1
  {
    if forward then (if ForwardDisabled(selected, today) then selected else NavigateDate(selected, 1))
    else NavigateDate(selected, -1)
  }

  function PressAll(selected: DayKey, today: DayKey, presses: seq<bool>): DayKey
    decreases |presses|
  {
    if presses == [] then selected else PressAll(Press(selected, today, presses[0]), today, presses[1..])
  }

  /** Starting on or before today, no sequence of arrow presses reaches a future day. */
  lemma {:induction false} NeverPastToday(selected: DayKey, today: DayKey, presses: seq<bool>)
    requires selected <= today
    ensures PressAll(selected, today, presses) <= today
    decreases |presses|
  {
    if presses != [] {
      NeverPastToday(Press(selected, today, presses[0]), today, presses[1..]);
    }
  }

  datatype TargetKind = MealTarget | WaterTarget

  datatype DeleteTarget = DeleteTarget(kind: TargetKind, id: string)

  /** `deleteDialogVisible` and `deleteTarget`. */
  datatype DeleteDialog = DeleteDialog(visible: bool, target: Option<DeleteTarget>)

  const Closed: DeleteDialog := DeleteDialog(false, None)

  /** `handleDelete(mealId)`. */
  function HandleDelete(d: DeleteDialog, mealId: string): (r: DeleteDialog)
    ensures r.visible && r.target == Some(DeleteTarget(MealTarget, mealId))
  {
    DeleteDialog(true, Some(DeleteTarget(MealTarget, mealId)))
  }

  /** `handleDeleteWater(logId)`. */
  function HandleDeleteWater(d: DeleteDialog, logId: string): (r: DeleteDialog)
    ensures r.visible && r.target == Some(DeleteTarget(WaterTarget, logId))
  {
    DeleteDialog(true, Some(DeleteTarget(WaterTarget, logId)))
  }

  /** `cancelDelete`: hide the dialog and forget the target. */
  function CancelDelete(d: DeleteDialog): (r: DeleteDialog)
    ensures !r.visible && r.target.None?
  {
    Closed
  }

  /** The hook call `confirmDelete` makes. */
  datatype DeleteCall = DeleteMealCall(mealId: string) | DeleteWaterLogCall(logId: string)

  datatype Confirmed = Confirmed(dialog: DeleteDialog, toasts: seq<Toast>, call: Option<DeleteCall>, refetch: Option<TargetKind>)

  /**
   * `confirmDelete`: with no target nothing happens. Otherwise the dialog
   * is hidden, the target is routed by its type to `deleteMeal` or
   * `deleteWaterLog`, one toast reports the result, the matching list is
   * refetched only after a successful delete, and the target is cleared.
   * `deleteError` is the error the hook answered; `null` and an empty
   * message are both falsy and so count as success.
   */
  function ConfirmDelete(d: DeleteDialog, ts: seq<Toast>, now: int, deleteError: Option<string>): (r: Confirmed)
    ensures d.target.None? ==> r.dialog == d && r.toasts == ts && r.call.None? && r.refetch.None?
    ensures d.target.Some? ==> r.dialog == Closed
    ensures d.target.Some? ==> |r.toasts| == |ts| + 1 && r.toasts[..|ts|] == ts
    ensures d.target.Some? && d.target.value.kind == MealTarget ==> r.call == Some(DeleteMealCall(d.target.value.id))
    ensures d.target.Some? && d.target.value.kind == WaterTarget ==> r.call == Some(DeleteWaterLogCall(d.target.value.id))
    ensures d.target.Some? && !Truthy(deleteError) ==>
      r.refetch == Some(d.target.value.kind) && r.toasts[|ts|].kind == ToastType.Success
    ensures d.target.Some? && Truthy(deleteError) ==> r.refetch.None? && r.toasts[|ts|].kind == ToastType.Error
  {
    match d.target
    case None => Confirmed(d, ts, None, None)
    case Some(t) =>
      var call := if t.kind == MealTarget then DeleteMealCall(t.id) else DeleteWaterLogCall(t.id);
      var message :=
        if t.kind == MealTarget then
          (if Truthy(deleteError) then "Failed to delete meal" else "Meal deleted successfully")
        else
          (if Truthy(deleteError) then "Failed to delete water log" else "Water log deleted successfully");
      var toasts := ShowToast(ts, if Truthy(deleteError) then ToastType.Error else ToastType.Success, message, now);
      Confirmed(Closed, toasts, Some(call), if Truthy(deleteError) then None else Some(t.kind))
  }

  /** Asking to delete a meal and confirming deletes exactly that meal. */
  lemma DeleteMealRoundTrip(d: DeleteDialog, mealId: string, ts: seq<Toast>, now: int, deleteError: Option<string>)
    ensures ConfirmDelete(HandleDelete(d, mealId), ts, now, deleteError).call == Some(DeleteMealCall(mealId))
    ensures ConfirmDelete(HandleDelete(d, mealId), ts, now, deleteError).dialog == Closed
  {
  }

  /** Asking to delete a water log and confirming deletes exactly that log. */
  lemma DeleteWaterRoundTrip(d: DeleteDialog, logId: string, ts: seq<Toast>, now: int, deleteError: Option<string>)
    ensures ConfirmDelete(HandleDeleteWater(d, logId), ts, now, deleteError).call == Some(DeleteWaterLogCall(logId))
    ensures ConfirmDelete(HandleDeleteWater(d, logId), ts, now, deleteError).dialog == Closed
  {
  }

  /** After a cancel, a confirm deletes nothing. */
  lemma CancelThenConfirmDeletesNothing(d: DeleteDialog, ts: seq<Toast>, now: int, deleteError: Option<string>)
    ensures ConfirmDelete(CancelDelete(d), ts, now, deleteError).call.None?
    ensures ConfirmDelete(CancelDelete(d), ts, now, deleteError).toasts == ts
  {
  }
}
