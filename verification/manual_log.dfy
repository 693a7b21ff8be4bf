/**
 * `ManualLogContent` (src/components/ManualLogContent.tsx): the manual meal
 * form of the bottom sheet. Saving validates the five text fields and
 * hands a draft to `addMeal`; the AI estimate asks the text-only analysis
 * for macros and pre-fills the number fields. `parseInt` and `parseFloat`
 * are parameters, and so is the number-to-text conversion used to
 * pre-fill the fields.
 */
module ManualLog {
  import opened Common
  import opened Records
  import opened DayCache
  import opened MealsHook
  import opened MealAnalysis
  import opened ToastQueue

  /** The five text fields of the form. */
  datatype Form = Form(description: string, calories: string, protein: string, carbs: string, fat: string)

  const EmptyForm: Form := Form("", "", "", "", "")

  /** `calories ? parseInt(calories) : 0`. */
  function CaloriesValue(field: string, parseInt: string -> Num): (r: Num)
    ensures field == "" ==> r == Zero
    ensures field != "" ==> r == parseInt(field)
  {
    if field != "" then parseInt(field) else Zero
  }

  /** `x && !isNaN(parseFloat(x)) ? parseFloat(x) : 0`: a macro is never NaN. */
  function MacroValue(field: string, parseFloat: string -> Num): (r: Num)
    ensures !r.NaN?
    ensures field == "" || parseFloat(field).NaN? ==> r == Zero
    ensures field != "" && !parseFloat(field).NaN? ==> r == parseFloat(field)
  {
    if field != "" && !parseFloat(field).NaN? then parseFloat(field) else Zero
  }

  /** All four values are `=== 0`. */
  predicate NoNutritionGiven(f: Form, parseInt: string -> Num, parseFloat: string -> Num) {
    && IsZero(CaloriesValue(f.calories, parseInt))
    && IsZero(MacroValue(f.protein, parseFloat))
    && IsZero(MacroValue(f.carbs, parseFloat))
    && IsZero(MacroValue(f.fat, parseFloat))
  }

  /** The outcome of `handleSave`'s checks, in the order it makes them. */
  datatype Validation =
    | BlankDescription
    | NoNutrition
    | InvalidCalories
    | Accept(draft: MealDraft)

  /**
   * `handleSave`'s checks: a blank description is refused first; then a
   * form whose four values are all zero; then non-empty calories that are
   * NaN or negative. Anything else becomes a manual draft carrying the
   * trimmed description.
   */
  function ValidateContent(f: Form, parseInt: string -> Num, parseFloat: string -> Num): (r: Validation)
    ensures r.BlankDescription? <==> Trim(f.description) == ""
    ensures r.NoNutrition? <==> Trim(f.description) != "" && NoNutritionGiven(f, parseInt, parseFloat)
    ensures r.InvalidCalories? <==>
      && Trim(f.description) != "" && !NoNutritionGiven(f, parseInt, parseFloat)
      && f.calories != "" && (parseInt(f.calories).NaN? || IsNegative(parseInt(f.calories)))
    ensures r.Accept? ==>
      && r.draft.source == Manual && r.draft.description == Some(Trim(f.description))
      && r.draft.calories == CaloriesValue(f.calories, parseInt)
      && r.draft.protein == MacroValue(f.protein, parseFloat)
      && r.draft.carbs == MacroValue(f.carbs, parseFloat)
      && r.draft.fat == MacroValue(f.fat, parseFloat)
    ensures r.Accept? ==>
      && !r.draft.calories.NaN? && !IsNegative(r.draft.calories)
      && !(IsZero(r.draft.calories) && IsZero(r.draft.protein) && IsZero(r.draft.carbs) && IsZero(r.draft.fat))
  {
    var calories := CaloriesValue(f.calories, parseInt);
    if Trim(f.description) == "" then BlankDescription
    else if NoNutritionGiven(f, parseInt, parseFloat) then NoNutrition
    else if f.calories != "" && (calories.NaN? || IsNegative(calories)) then InvalidCalories
    else
      Accept(MealDraft(calories, MacroValue(f.protein, parseFloat), MacroValue(f.carbs, parseFloat),
                       MacroValue(f.fat, parseFloat), Manual, Some(Trim(f.description))))
  }

  const BlankDescriptionMessage: string := "Please enter a meal description"
  const NoNutritionMessage: string :=
    "Please either click \"Get AI Estimate\" for automatic values, or enter at least calories manually"
  const InvalidCaloriesMessage: string := "Please enter a valid number for calories"
  const SaveFailedMessage: string := "Failed to save meal"
  const SavedMessage: string := "Meal logged successfully!"

  /** What `handleSave` leaves behind. */
  datatype SaveResult = SaveResult(
    form: Form,
    toasts: seq<Toast>,
    mutation: Option<Mutation<MealInsert, Meal>>,
    closed: bool)

  /**
   * `handleSave`: a refused form shows one warning or error and calls
   * nothing; an accepted one goes to `addMeal`, and only when that
   * reports no error (`null` or an empty message, both falsy) is the form
   * cleared and the sheet closed.
   */
  function HandleSave(f: Form, ts: seq<Toast>, now: int, s: Store<Meal>, userId: Option<UserId>,
                      parseInt: string -> Num, parseFloat: string -> Num, insert: Outcome<Meal>)
    : (r: SaveResult)
    ensures |r.toasts| == |ts| + 1 && r.toasts[..|ts|] == ts
    ensures var v := ValidateContent(f, parseInt, parseFloat);
      && (!v.Accept? ==> r.mutation.None? && r.form == f && !r.closed)
      && (v.BlankDescription? || v.NoNutrition? ==> r.toasts[|ts|].kind == Warning)
      && (v.InvalidCalories? ==> r.toasts[|ts|].kind == ToastType.Error)
      && (v.Accept? ==> r.mutation == Some(AddMeal(s, userId, v.draft, insert)))
    ensures r.mutation.Some? && !Truthy(r.mutation.value.error) ==>
      && r.form == EmptyForm && r.closed
      && r.toasts[|ts|] == Toast(now, ToastType.Success, SavedMessage)
    ensures r.mutation.Some? && Truthy(r.mutation.value.error) ==>
      r.form == f && !r.closed && r.toasts[|ts|] == Toast(now, ToastType.Error, SaveFailedMessage)
  {
    var v := ValidateContent(f, parseInt, parseFloat);
    if v.BlankDescription? then
      SaveResult(f, ShowToast(ts, Warning, BlankDescriptionMessage, now), None, false)
    else if v.NoNutrition? then
      SaveResult(f, ShowToast(ts, Warning, NoNutritionMessage, now), None, false)
    else if v.InvalidCalories? then
      SaveResult(f, ShowToast(ts, ToastType.Error, InvalidCaloriesMessage, now), None, false)
    else
      var m := AddMeal(s, userId, v.draft, insert);
      if Truthy(m.error) then SaveResult(f, ShowToast(ts, ToastType.Error, SaveFailedMessage, now), Some(m), false)
      else SaveResult(EmptyForm, ShowToast(ts, ToastType.Success, SavedMessage, now), Some(m), true)
  }

  /** Saving without a signed-in user never inserts and keeps what was typed. */
  lemma SaveWithoutUserKeepsForm(f: Form, ts: seq<Toast>, now: int, s: Store<Meal>,
                                 parseInt: string -> Num, parseFloat: string -> Num, insert: Outcome<Meal>)
    ensures var r := HandleSave(f, ts, now, s, None, parseInt, parseFloat, insert);
      r.form == f && !r.closed && (r.mutation.Some? ==> r.mutation.value.call.None? && r.mutation.value.store == s)
  {
  }

  const DescribeMealMessage: string :=
    "Please describe your meal with quantities (e.g., \"300g rice with 200g dal and 1 tbsp ghee\")"
  const LoginRequiredMessage: string := "You must be logged in"
  const AnalysisFailedMessage: string :=
    "Could not analyze meal description. Please try again or enter macros manually."

  /** Whether `handleGetAIEstimate` goes ahead. */
  datatype Gate = ShortDescription | NotLoggedIn | Proceed

  /** `handleGetAIEstimate`'s two checks: the description first, then the user. */
  function AIEstimateGate(description: string, userId: Option<UserId>): (r: Gate)
    ensures r == ShortDescription <==> Utf16Length(Trim(description)) < MinDescriptionLength
    ensures r == NotLoggedIn <==> Utf16Length(Trim(description)) >= MinDescriptionLength && !Truthy(userId)
    ensures r == Proceed <==> Utf16Length(Trim(description)) >= MinDescriptionLength && Truthy(userId)
  {
    if description == "" || Utf16Length(Trim(description)) < 10 then ShortDescription
    else if !Truthy(userId) then NotLoggedIn
    else Proceed
  }

  /** The AI button is drawn only when `description.trim().length >= 10`. */
  predicate ShowsAIButton(description: string) {
    Utf16Length(Trim(description)) >= 10
  }

  /**
   * The form's check and the text analysis's own check agree: with a
   * user, the form proceeds exactly when the analysis issues a request,
   * and the button is on screen exactly then.
   */
  lemma GateAgreesWithTextAnalysis(description: string, userId: UserId, invoke: InvokeResult)
    ensures AIEstimateGate(description, Some(userId)) == Proceed
        <==> AnalyzeMealTextOnly(userId, description, invoke).request.Some?
    ensures AIEstimateGate(description, Some(userId)) == Proceed <==> ShowsAIButton(description)
  {
  }

  /** The info toast after an estimate. */
  function EstimateMessage(d: AnalysisResponse): string {
    OrElse(d.mealDescription, "Meal analyzed") + ". You can edit the values before saving."
  }

  datatype EstimateResult = EstimateResult(form: Form, toasts: seq<Toast>, analysis: Option<TextResult>)

  /**
   * `handleGetAIEstimate`: refused descriptions and missing users produce
   * one toast and no analysis; a successful analysis overwrites the four
   * number fields (never the description) and shows an info toast; a
   * failed one leaves the form as it was and shows an error.
   */
  function HandleGetAIEstimate(f: Form, ts: seq<Toast>, now: int, userId: Option<UserId>, invoke: InvokeResult,
                               show: real -> string)
    : (r: EstimateResult)
    ensures |r.toasts| == |ts| + 1 && r.toasts[..|ts|] == ts
    ensures r.form.description == f.description
    ensures AIEstimateGate(f.description, userId) != Proceed ==> r.analysis.None? && r.form == f
    ensures AIEstimateGate(f.description, userId) == ShortDescription ==> r.toasts[|ts|].kind == Warning
    ensures AIEstimateGate(f.description, userId) == NotLoggedIn ==>
      r.toasts[|ts|] == Toast(now, ToastType.Error, LoginRequiredMessage)
    ensures AIEstimateGate(f.description, userId) == Proceed ==>
      r.analysis == Some(AnalyzeMealTextOnly(userId.value, f.description, invoke))
    ensures r.analysis.Some? && r.analysis.value.data.Some? ==>
      var d := r.analysis.value.data.value;
      && r.form == Form(f.description, show(d.calories), show(d.protein), show(d.carbs), show(d.fat))
      && r.toasts[|ts|] == Toast(now, Info, EstimateMessage(d))
    ensures r.analysis.Some? && r.analysis.value.data.None? ==>
      r.form == f && r.toasts[|ts|].kind == ToastType.Error && r.toasts[|ts|].message != ""
  {
    var gate := AIEstimateGate(f.description, userId);
    if gate == ShortDescription then
      EstimateResult(f, ShowToast(ts, Warning, DescribeMealMessage, now), None)
    else if gate == NotLoggedIn then
      EstimateResult(f, ShowToast(ts, ToastType.Error, LoginRequiredMessage, now), None)
    else
      var a := AnalyzeMealTextOnly(userId.value, f.description, invoke);
      if Truthy(a.error) || a.data.None? then
        EstimateResult(f, ShowToast(ts, ToastType.Error, OrElse(a.error, AnalysisFailedMessage), now), Some(a))
      else
        var d := a.data.value;
        EstimateResult(Form(f.description, show(d.calories), show(d.protein), show(d.carbs), show(d.fat)),
                       ShowToast(ts, Info, EstimateMessage(d), now), Some(a))
  }
}
