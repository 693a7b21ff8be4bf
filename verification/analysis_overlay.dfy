/**
 * `AnalysisLoadingOverlay` (src/components/ui/AnalysisLoadingOverlay.tsx):
 * which step list is shown, where the current step sits in it, and how each
 * row is drawn (completed, current or pending, plus its connector line).
 */
module AnalysisOverlay {
  import opened Common
  import opened Records

  datatype Mode = ImageMode | TextMode

  const ImageSteps: seq<AnalysisStep> := [Uploading, Analyzing, Extracting, Completing]
  const TextSteps: seq<AnalysisStep> := [Parsing, Estimating, Finalizing]

  /** The `mode` prop defaults to image; anything but image selects the text steps. */
  function StepsFor(mode: Option<Mode>): (r: seq<AnalysisStep>)
    ensures mode != Some(TextMode) ==> r == ImageSteps && |r| == 4
    ensures mode == Some(TextMode) ==> r == TextSteps && |r| == 3
  {
    match mode
    case Some(TextMode) => TextSteps
    case _ => ImageSteps
  }

  /** `Array.prototype.findIndex` on the step keys: the first position of `step`, or -1. */
  function FindIndex(steps: seq<AnalysisStep>, step: AnalysisStep): (r: int)
    ensures -1 <= r < |steps|
    ensures r == -1 <==> step !in steps
    ensures r >= 0 ==> steps[r] == step && forall j :: 0 <= j < r ==> steps[j] != step
  {
    if steps == [] then -1
    else if steps[0] == step then 0
    else
      var i := FindIndex(steps[1..], step);
      if i == -1 then -1 else i + 1
  }

  /** `getStepIndex`: `'done'` is one past the last step; an unknown step is -1. */
  function GetStepIndex(steps: seq<AnalysisStep>, step: AnalysisStep): (r: int)
    ensures step == Done ==> r == |steps|
    ensures step != Done && step !in steps ==> r == -1
    ensures step != Done && step in steps ==> 0 <= r < |steps| && steps[r] == step
  {
    if step == Done then |steps| else FindIndex(steps, step)
  }

  /** The three flags the render computes for the row at `index`. */
  datatype StepFlags = StepFlags(isCompleted: bool, isCurrent: bool, isPending: bool)

  function Flags(index: int, current: int): (f: StepFlags)
    ensures (f.isCompleted && !f.isCurrent && !f.isPending)
         || (!f.isCompleted && f.isCurrent && !f.isPending)
         || (!f.isCompleted && !f.isCurrent && f.isPending)
  {
    StepFlags(index < current, index == current, index > current)
  }

  /** One drawn row: its step, its flags, and its connector (`Some(green)` for all but the last row). */
  datatype Row = Row(step: AnalysisStep, flags: StepFlags, connector: Option<bool>)

  /** The rows of `steps.map(...)` with the current index `current`. */
  function Rows(steps: seq<AnalysisStep>, current: int): (rows: seq<Row>)
    ensures |rows| == |steps|
    ensures forall i :: 0 <= i < |rows| ==> rows[i].step == steps[i] && rows[i].flags == Flags(i, current)
    ensures forall i :: 0 <= i < |rows| ==>
      rows[i].connector == if i < |steps| - 1 then Some(rows[i].flags.isCompleted) else None
  {
    seq(|steps|, i requires 0 <= i < |steps| =>
      var f := Flags(i, current);
      Row(steps[i], f, if i < |steps| - 1 then Some(f.isCompleted) else None))
  }

  /**
   * The overlay: nothing when neither `visible` nor `renderOverlay` holds;
   * otherwise one row per step of the active list.
   */
  function Render(visible: bool, renderOverlay: bool, mode: Option<Mode>, currentStep: AnalysisStep)
    : (r: Option<seq<Row>>)
    ensures !visible && !renderOverlay <==> r.None?
    ensures r.Some? ==> |r.value| == |StepsFor(mode)|
    ensures r.Some? ==> forall i :: 0 <= i < |r.value| ==> r.value[i].step == StepsFor(mode)[i]
    ensures r.Some? ==> forall i :: 0 <= i < |r.value| ==>
      (r.value[i].connector.Some? <==> i < |r.value| - 1)
    ensures r.Some? ==> forall i :: 0 <= i < |r.value| && r.value[i].connector.Some? ==>
      (r.value[i].connector.value <==> r.value[i].flags.isCompleted)
    ensures r.Some? && currentStep == Done ==> forall i :: 0 <= i < |r.value| ==> r.value[i].flags.isCompleted
    ensures r.Some? && currentStep !in StepsFor(mode) + [Done] ==>
      forall i :: 0 <= i < |r.value| ==> r.value[i].flags.isPending
    ensures r.Some? ==> forall i, j :: 0 <= i < j < |r.value| ==>
      !(r.value[i].flags.isCurrent && r.value[j].flags.isCurrent)
    ensures r.Some? && currentStep in StepsFor(mode) ==>
      exists i :: 0 <= i < |r.value| && r.value[i].flags.isCurrent && r.value[i].step == currentStep
  {
    if !visible && !renderOverlay then None
    else
      var steps := StepsFor(mode);
      var current := GetStepIndex(steps, currentStep);
      var rows := Rows(steps, current);
      assert currentStep in steps ==> rows[current].flags.isCurrent;
      Some(rows)
  }
}
