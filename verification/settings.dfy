/**
 * The profile editor of `SettingsScreen` (src/screens/SettingsScreen.tsx):
 * the live stats shown while typing, the validation of `handleSave`, the
 * profile fields it writes, and the `saving` flag around the update.
 * `calculateHealthStats`, `parseInt` and `parseFloat` are parameters.
 */
module Settings {
  import opened Common
  import opened Records
  import opened ToastQueue

  /** `HealthStats` of src/utils/healthCalculations.ts, whose formulas are not part of this model. */
  datatype HealthStats = HealthStats(bmr: Num, tdee: Num, calories: Num, protein: Num, carbs: Num, fats: Num, water: Num)

  type Calculator = (Num, Num, Num, Sex, ActivityLevel, GoalMode) -> HealthStats

  /** The editor's state: three text fields and three choices. */
  datatype Inputs = Inputs(height: string, weight: string, age: string, sex: Sex, activity: ActivityLevel, goal: GoalMode)

  /** The editor before a profile is loaded. */
  const DefaultInputs: Inputs := Inputs("175", "70", "25", Male, Moderate, Maintain)

  /** The three numbers the live stats are computed from. */
  datatype Body = Body(height: Num, weight: Num, age: Num)

  /**
   * `parseFloat(height) || 0`, `parseFloat(weight) || 0`, `parseInt(age) || 0`:
   * never NaN, and the parsed value itself whenever that is a non-zero number.
   */
  function DisplayedBody(i: Inputs, parseInt: string -> Num, parseFloat: string -> Num): (b: Body)
    ensures !b.height.NaN? && !b.weight.NaN? && !b.age.NaN?
    ensures parseFloat(i.height).NaN? || IsZero(parseFloat(i.height)) ==> b.height == Zero
    ensures !parseFloat(i.height).NaN? && !IsZero(parseFloat(i.height)) ==> b.height == parseFloat(i.height)
    ensures parseFloat(i.weight).NaN? || IsZero(parseFloat(i.weight)) ==> b.weight == Zero
    ensures !parseFloat(i.weight).NaN? && !IsZero(parseFloat(i.weight)) ==> b.weight == parseFloat(i.weight)
    ensures parseInt(i.age).NaN? || IsZero(parseInt(i.age)) ==> b.age == Zero
    ensures !parseInt(i.age).NaN? && !IsZero(parseInt(i.age)) ==> b.age == parseInt(i.age)
  {
    Body(OrZero(parseFloat(i.height)), OrZero(parseFloat(i.weight)), OrZero(parseInt(i.age)))
  }

  /**
   * The stats shown under the editor, recomputed on every keystroke: the
   * calculator sees each parsed value when it is a non-zero number and 0
   * in its place otherwise, so it is never handed NaN.
   */
  function DisplayedStats(i: Inputs, parseInt: string -> Num, parseFloat: string -> Num, compute: Calculator)
    : (r: HealthStats)
    ensures exists h: Num, w: Num, a: Num :: (
      && !h.NaN? && !w.NaN? && !a.NaN?
      && (h == parseFloat(i.height) || h == Zero)
      && (w == parseFloat(i.weight) || w == Zero)
      && (a == parseInt(i.age) || a == Zero)
      && r == compute(h, w, a, i.sex, i.activity, i.goal))
    ensures !InvalidStats(parseFloat(i.height), parseFloat(i.weight), parseInt(i.age)) ==>
      r == compute(parseFloat(i.height), parseFloat(i.weight), parseInt(i.age), i.sex, i.activity, i.goal)
  {
    var b := DisplayedBody(i, parseInt, parseFloat);
    compute(b.height, b.weight, b.age, i.sex, i.activity, i.goal)
  }

  /** `isNaN(h) || isNaN(w) || isNaN(a) || h <= 0 || w <= 0 || a <= 0`. */
  predicate InvalidStats(h: Num, w: Num, a: Num) {
    h.NaN? || w.NaN? || a.NaN? || IsNonPositive(h) || IsNonPositive(w) || IsNonPositive(a)
  }

  /** The fields `handleSave` writes to the profile. */
  datatype ProfileUpdate = ProfileUpdate(
    heightCm: Num,
    weightKg: Num,
    age: Num,
    sex: Sex,
    activityLevel: ActivityLevel,
    maintenanceCalories: Num,
    proteinTarget: Num,
    carbsTarget: Num,
    fatTarget: Num,
    waterTargetMl: Num,
    goalMode: GoalMode)

  /** One observable step of `handleSave`. */
  datatype Effect =
    | SetSaving(on: bool)
    | IssueUpdate(update: ProfileUpdate)
    | ToastShown(kind: ToastType, message: string)
    | CloseSheet

  /** The `saving` flag after the first `n` effects, starting from `false`. */
  function SavingAfter(trace: seq<Effect>, n: nat): bool
    requires n <= |trace|
  {
    if n == 0 then false
    else if trace[n - 1].SetSaving? then trace[n - 1].on
    else SavingAfter(trace, n - 1)
  }

  const InvalidStatsMessage: string := "Please enter valid physical stats"
  const UpdateFailedMessage: string := "Failed to update settings"
  const UpdatedMessage: string := "Settings updated successfully!"

  /**
   * `handleSave`: height and age are parsed as integers and weight as a
   * float; invalid stats show one error and issue nothing. Otherwise one
   * update is issued, while `saving` is on, writing the parsed body, the
   * TDEE as maintenance calories, the macro and water targets of the
   * displayed stats and the chosen goal; `saving` is off at the end, and
   * the sheet closes only when the update reported no error.
   * `updateError` is what `updateProfile` answered; `null` and an empty
   * message are both falsy and so count as success.
   */
  function HandleSave(i: Inputs, parseInt: string -> Num, parseFloat: string -> Num, compute: Calculator,
                      updateError: Option<string>)
    : (trace: seq<Effect>)
    ensures var h, w, a := parseInt(i.height), parseFloat(i.weight), parseInt(i.age);
      InvalidStats(h, w, a) <==> trace == [ToastShown(ToastType.Error, InvalidStatsMessage)]
    ensures forall k :: 0 <= k < |trace| && trace[k].IssueUpdate? ==> SavingAfter(trace, k)
    ensures !SavingAfter(trace, |trace|)
    ensures (exists k :: 0 <= k < |trace| && trace[k].IssueUpdate?) <==>
      !InvalidStats(parseInt(i.height), parseFloat(i.weight), parseInt(i.age))
    ensures !InvalidStats(parseInt(i.height), parseFloat(i.weight), parseInt(i.age)) ==>
      var stats := DisplayedStats(i, parseInt, parseFloat, compute);
      && |trace| >= 4 && trace[1].IssueUpdate?
      && trace[1].update.heightCm == parseInt(i.height)
      && trace[1].update.weightKg == parseFloat(i.weight)
      && trace[1].update.age == parseInt(i.age)
      && trace[1].update.sex == i.sex && trace[1].update.activityLevel == i.activity
      && trace[1].update.maintenanceCalories == stats.tdee
      && trace[1].update.proteinTarget == stats.protein
      && trace[1].update.carbsTarget == stats.carbs
      && trace[1].update.fatTarget == stats.fats
      && trace[1].update.waterTargetMl == stats.water
      && trace[1].update.goalMode == i.goal
    ensures CloseSheet in trace <==>
      !InvalidStats(parseInt(i.height), parseFloat(i.weight), parseInt(i.age)) && !Truthy(updateError)
  {
    var h, w, a := parseInt(i.height), parseFloat(i.weight), parseInt(i.age);
    if InvalidStats(h, w, a) then [ToastShown(ToastType.Error, InvalidStatsMessage)]
    else
      var stats := DisplayedStats(i, parseInt, parseFloat, compute);
      var update := ProfileUpdate(h, w, a, i.sex, i.activity, stats.tdee, stats.protein, stats.carbs,
                                  stats.fats, stats.water, i.goal);
      var prefix := [SetSaving(true), IssueUpdate(update), SetSaving(false)];
      var trace := if Truthy(updateError) then prefix + [ToastShown(ToastType.Error, UpdateFailedMessage)]
                   else prefix + [ToastShown(ToastType.Success, UpdatedMessage), CloseSheet];
      assert trace[1].IssueUpdate? && SavingAfter(trace, 1);
      assert !SavingAfter(trace, 3);
      assert !SavingAfter(trace, |trace|);
      trace
  }

  /** The defaults are valid stats whenever the parsers read "175", "70" and "25" as those numbers. */
  lemma DefaultsAreValid(parseInt: string -> Num, parseFloat: string -> Num)
    requires parseInt("175") == Finite(175.0) && parseFloat("70") == Finite(70.0) && parseInt("25") == Finite(25.0)
    ensures !InvalidStats(parseInt(DefaultInputs.height), parseFloat(DefaultInputs.weight), parseInt(DefaultInputs.age))
  {
  }
}
