/**
 * `ManualLogMealScreen` (src/screens/ManualLogMealScreen.tsx): the older
 * full-screen manual form. Every number field must parse, calories must be
 * positive, and the description is optional and stored untrimmed.
 */
module ManualLogScreen {
  import opened Common
  import opened Records
  import opened DayCache
  import opened MealsHook
  import ManualLog

  /** A native alert: title and message. */
  datatype Alert = Alert(title: string, message: string)

  datatype ScreenValidation = InvalidNumbers | NonPositiveCalories | ScreenAccept(draft: MealDraft)

  /** Any of the four fields parses to NaN. */
  predicate AnyNaN(calories: string, protein: string, carbs: string, fat: string,
                   parseInt: string -> Num, parseFloat: string -> Num) {
    parseInt(calories).NaN? || parseFloat(protein).NaN? || parseFloat(carbs).NaN? || parseFloat(fat).NaN?
  }

  /**
   * `handleSave`'s checks: NaN anywhere is refused, then calories that are
   * not positive. An accepted draft carries the parsed values and the
   * description only when it is non-empty.
   */
  function ValidateScreen(form: ManualLog.Form, parseInt: string -> Num, parseFloat: string -> Num)
    : (r: ScreenValidation)
    ensures r.InvalidNumbers? <==> AnyNaN(form.calories, form.protein, form.carbs, form.fat, parseInt, parseFloat)
    ensures r.NonPositiveCalories? <==>
      !AnyNaN(form.calories, form.protein, form.carbs, form.fat, parseInt, parseFloat) && IsNonPositive(parseInt(form.calories))
    ensures r.ScreenAccept? ==>
      && r.draft.calories == parseInt(form.calories) && r.draft.protein == parseFloat(form.protein)
      && r.draft.carbs == parseFloat(form.carbs) && r.draft.fat == parseFloat(form.fat)
      && r.draft.source == Manual
      && (form.description == "" ==> r.draft.description.None?)
      && (form.description != "" ==> r.draft.description == Some(form.description))
    ensures r.ScreenAccept? ==>
      && !r.draft.calories.NaN? && !IsNonPositive(r.draft.calories)
      && !r.draft.protein.NaN? && !r.draft.carbs.NaN? && !r.draft.fat.NaN?
  {
    var calories := parseInt(form.calories);
    if AnyNaN(form.calories, form.protein, form.carbs, form.fat, parseInt, parseFloat) then InvalidNumbers
    else if IsNonPositive(calories) then NonPositiveCalories
    else
      ScreenAccept(MealDraft(calories, parseFloat(form.protein), parseFloat(form.carbs), parseFloat(form.fat), Manual,
                             if form.description == "" then None else Some(form.description)))
  }

  /**
   * The two manual forms compared: with JavaScript's `parseInt("")` and
   * `parseFloat("")` being NaN, every form this screen accepts with a
   * non-blank description is accepted by the sheet too, with the same
   * numbers. Only the stored description differs (trimmed there,
   * untrimmed here).
   */
  lemma ScreenAcceptImpliesContentAccept(form: ManualLog.Form, parseInt: string -> Num, parseFloat: string -> Num)
    requires parseInt("").NaN? && parseFloat("").NaN?
    requires Trim(form.description) != ""
    requires ValidateScreen(form, parseInt, parseFloat).ScreenAccept?
    ensures ManualLog.ValidateContent(form, parseInt, parseFloat).Accept?
    ensures var d, e := ValidateScreen(form, parseInt, parseFloat).draft, ManualLog.ValidateContent(form, parseInt, parseFloat).draft;
      d.(description := e.description) == e
  {
  }

  /** The sheet accepts what this screen refuses: calories alone, with the macro fields left empty. */
  lemma ContentAcceptsWhatScreenRefuses(description: string, calories: string,
                                        parseInt: string -> Num, parseFloat: string -> Num)
    requires parseInt("").NaN? && parseFloat("").NaN?
    requires Trim(description) != ""
    requires parseInt(calories).Finite? && parseInt(calories).value > 0.0
    ensures var form := ManualLog.Form(description, calories, "", "", "");
      ValidateScreen(form, parseInt, parseFloat).InvalidNumbers?
      && ManualLog.ValidateContent(form, parseInt, parseFloat).Accept?
  {
  }

  datatype ScreenSave = ScreenSave(alert: Alert, mutation: Option<Mutation<MealInsert, Meal>>, wentBack: bool)

  const InvalidNumbersMessage: string := "Please enter valid numbers for all fields"
  const NonPositiveMessage: string := "Calories must be greater than 0"

  /**
   * `handleSave` on this screen: refused input raises an "Invalid Input"
   * alert and calls nothing; accepted input goes to `addMeal` and the
   * screen goes back only when that reports no error (a falsy one).
   */
  function HandleSave(form: ManualLog.Form, s: Store<Meal>, userId: Option<UserId>,
                      parseInt: string -> Num, parseFloat: string -> Num, insert: Outcome<Meal>)
    : (r: ScreenSave)
    ensures var v := ValidateScreen(form, parseInt, parseFloat);
      && (v.InvalidNumbers? ==> r.mutation.None? && !r.wentBack && r.alert == Alert("Invalid Input", InvalidNumbersMessage))
      && (v.NonPositiveCalories? ==> r.mutation.None? && !r.wentBack && r.alert == Alert("Invalid Input", NonPositiveMessage))
      && (v.ScreenAccept? ==> r.mutation == Some(AddMeal(s, userId, v.draft, insert)))
    ensures r.wentBack <==> r.mutation.Some? && !Truthy(r.mutation.value.error)
  {
    var v := ValidateScreen(form, parseInt, parseFloat);
    if v.InvalidNumbers? then ScreenSave(Alert("Invalid Input", InvalidNumbersMessage), None, false)
    else if v.NonPositiveCalories? then ScreenSave(Alert("Invalid Input", NonPositiveMessage), None, false)
    else
      var m := AddMeal(s, userId, v.draft, insert);
      if Truthy(m.error) then ScreenSave(Alert("Error", "Failed to save meal"), Some(m), false)
      else ScreenSave(Alert("Success", "Meal logged successfully!"), Some(m), true)
  }
}
